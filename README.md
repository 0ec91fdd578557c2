# Pong game core in Dafny

This project models the single-player pong game of `script.js`. The player's
paddle sits at the left edge of the canvas and the AI's at the right. The
player steers with the arrow keys, the mouse or a touch. The ball bounces off
the top and bottom walls and rebounds off a paddle with "spin": its new vertical
speed is 0.35 times its offset from the paddle's centre. A ball that leaves by
an edge gives the other side a point. A side wins with at least 3 points and a
lead of at least 2. After a point that does not win, the ball is served again
from the centre and a 3-2-1-GO countdown holds play. The start, play-again and
pause buttons and the difficulty selector (Easy, Medium, Hard) drive the
match. The player's best score is kept as the high score.

Three modules:

- `PongRules` (`rules.dfy`) holds the pure rules. These are the constants, the
  difficulty table, the `Wins` test, the paddle clamp, the AI chase, the spin
  rebound, the serve velocity and the trimming of the player's name.
- `PongMatch` (`match.dfy`) describes the whole mutable state as one value,
  `Game`. It has one pure function per routine of the script that gives the
  state after that routine. An `Event`/`Run` pair replays any sequence of
  frames, timer firings and user actions. The lemmas about the game are proved
  over these functions.
- `PongEngine` (`engine.dfy`) holds the class `PongGame`. Its fields are the
  script's module-level variables, and it has one method per routine. Each
  method updates the fields in place in the script's order. It is proved to
  leave `Snapshot()` equal to the matching `PongMatch` function applied to the
  old snapshot, so every `PongMatch` lemma also holds of the object. `Valid()`
  is the invariant: the board is at least one paddle high, both paddles are on
  the board, and a countdown is active exactly while its interval is pending,
  with a value in 0..3.

The frame routine `moveEverything` is split into phase methods
(`AdvanceBall`, `ScoreLeftEdge`, `ScoreRightEdge`, `ReboundOffPaddles`,
`MoveAiPaddle`, then `KeyboardPaddleControl`). `MoveEverything` calls them in
the source's order. As in the source, the frame does not stop after a point:
the paddle checks and the AI move still run in that tick.

The model keeps these behaviours of `script.js`:

- A match that is won never enters `GameOver`. `endGame` only pauses the game
  and shows the overlay, so `gameState` stays `Playing`.
- Resuming from `Paused` goes straight back to `Playing`, with no countdown.
- A ball counts as out as soon as its centre passes an edge (`ballX < 0`,
  `ballX > width`).
- The frame routine itself checks for a win, re-serves and starts the countdown.
- Changing the difficulty always resets the scores, paddles and ball. On the
  welcome screen only the countdown is skipped. On the game-over screen the
  state is still `Playing`, so a countdown starts and play resumes behind the
  overlay.
- The touch handler is not gated on the game state. The mouse handler is.

## Model

| member | source | states |
|---|---|---|
| PongRules.BallInitialSpeed | script.js:76-80 | The serve speed of every level (5, 6, 7 for Easy, Medium, Hard) is positive. |
| PongRules.AiPaddleSpeed | script.js:76-80 | The AI's chase speed (3, 5, 7) is positive and never exceeds the serve speed of the same level. |
| PongRules.HarderLevelChasesFarther | script.js:76-80 | Outside the dead zone, a harder level's AI step goes the same way as an easier level's and strictly farther. |
| PongRules.HarderLevelServesFaster | script.js:76-80 | For the same random draws, a harder level serves in the same direction with a strictly larger horizontal speed. |
| PongRules.Wins | script.js:173 | A side wins exactly when its score reaches max(3, the other side's score + 2). The same test is applied to the player at line 189. |
| PongRules.WinsExamples | script.js:173 | Reaching 3 points is not enough without a 2-point margin: 3-2, 5-4, 2-0 and 3-3 are not wins. 4-2, 3-1, 5-3 and 3-0 are. |
| PongRules.WinsIsExclusive | script.js:189 | The two sides can never both satisfy the win test for the same score line. |
| PongRules.FirstWinningScore | script.js:189 | The point that first makes a side win brings its score to exactly max(3, opponent + 2). |
| PongRules.ClampPaddle | script.js:296-297 | The two-step clamp always yields a paddle top in [0, height - 100]. It keeps an in-range value, maps values above the top edge to 0 and values past the bottom to height - 100. |
| PongRules.AiChase | script.js:214-217 | The AI stays put when its centre is within 35 of the ball. Otherwise it moves by exactly the difficulty's AI speed, downwards exactly when its centre is above the ball. |
| PongRules.Spin | script.js:202-203 | The rebound's vertical speed is below 17.5 in magnitude for a ball strictly inside the paddle band. It is positive exactly when the ball is below the paddle's centre and zero exactly at the centre. |
| PongRules.ServeVelocity | script.js:87-88 | A serve's horizontal speed is exactly the difficulty's initial speed, rightwards exactly when the first draw exceeds 0.5. Its vertical speed lies in [-speed, speed). |
| PongRules.Trim | script.js:322 | The trimmed name neither starts nor ends with JavaScript whitespace. It is empty exactly when the input is all whitespace. It is a slice of the input with only whitespace around it. |
| PongRules.PlayerNameFrom | script.js:322 | The player's name is never empty. A blank or whitespace-only entry gives "Player"; any other entry gives the trimmed entry. |
| PongMatch.HeldFrameChangesNothing | script.js:159 | A frame while the game is paused or counting down changes nothing. |
| PongMatch.WallBounceFlipsOnce | script.js:161-167 | After the ball moves, touching a wall negates the vertical speed exactly once, keeping its magnitude, even when both wall conditions hold. Nothing else changes. |
| PongMatch.PaddleHitRebounds | script.js:200-212 | A hit on either paddle negates the horizontal speed and sets the vertical speed to 0.35 times the offset from that paddle's centre, which is below 17.5 in magnitude. |
| PongMatch.PaddlePhaseFrame | script.js:200-221 | The paddle part of a frame changes only the ball's speeds and the paddles. It never moves the ball. A ball just served at the centre of a board at least 40 wide is left untouched. |
| PongMatch.LeftEdgePoint | script.js:169-182 | A ball passing the left edge gives the AI exactly one point, leaves the player's score and the high score alone, and pauses the game. Without a win, the ball is re-served from the centre and a countdown from 3 starts. On a board at least 40 wide the serve keeps the difficulty's speed to the end of the frame. |
| PongMatch.RightEdgePoint | script.js:184-198 | A ball passing the right edge gives the player exactly one point, raises the high score to at least the player's score, and pauses the game. Without a win, it is re-served from the centre and a countdown from 3 starts. On a board at least 40 wide the serve keeps the difficulty's speed to the end of the frame. |
| PongMatch.NoEdgeNoPoint | script.js:169-198 | While the ball stays between the edges, a frame leaves the scores, the pause flag and the countdown unchanged. |
| PongMatch.AiPaddleFollowsBall | script.js:214-219 | In a running frame the AI paddle ends where the dead-zone chase towards the ball's new height, followed by the clamp, puts it. |
| PongMatch.BothArrowsCancel | script.js:293-297 | Holding both arrow keys leaves an on-board paddle where it is. |
| PongMatch.TicksWithoutTimer | script.js:264-274 | Once the countdown interval has been cleared, further firings change nothing. |
| PongMatch.TicksFrom | script.js:264-274 | From a running countdown showing v, the first v firings only lower the counter by one each. Every later firing leaves it cleared, at -1, with the game unpaused. |
| PongMatch.CountdownSequence | script.js:256-275 | A countdown shows 3, 2, 1, 0 and stays active for its first three firings. The fourth firing clears it and unpauses the game, and later firings do nothing. The firings themselves change nothing else; the frame that the fourth firing can start at once (line 272) is a separate frame event. |
| PongMatch.RestartCountdown | script.js:256-260 | Restarting a countdown that is still running gives the same state as starting it afresh. The pending interval is a single flag, so the model holds that line 257 clears the earlier interval rather than proving it. |
| PongMatch.PauseIgnoredDuringCountdown | script.js:338-339 | The pause button does nothing while a countdown is active. |
| PongMatch.PauseTwiceRestores | script.js:338-354 | Outside a countdown, with the pause flag matching the state, two presses restore `gameState` and `gamePaused`. |
| PongMatch.PauseTwiceAfterEndGame | script.js:231-240 | After a won match the state is still `Playing`, so the two presses themselves clear the pause flag. The frame the resume press runs at once is stated separately, in `ResumeAfterWinScoresAgain`. |
| PongMatch.ResumeAfterWinScoresAgain | script.js:346-351 | After a won match on the left, pausing and resuming followed by the frame the resume runs at once finds the ball still past the edge. That frame gives the AI another point and pauses the game again. |
| PongMatch.StartBeginsMatch | script.js:321-328 | Start enters `Playing` with a 0-0 score and the high score kept. The paddles are centred, the ball is at the centre, the game is paused behind a countdown from 3, and the name is non-empty. |
| PongMatch.DifficultyResetsMatch | script.js:356-364 | A difficulty change stores the level, keeps the state, resets the scores to 0-0 and pauses. The new serve runs at the new level's speed. A countdown starts exactly when a match was `Playing` or `Paused`. |
| PongMatch.InitialSatisfiesInv | script.js:367-374 | The page-load state is on the welcome screen and satisfies the invariant. |
| PongMatch.MoveEverythingKeepsInv | script.js:158-222 | A frame keeps both paddles on the board and the countdown consistent, and leaves the state unchanged. |
| PongMatch.ApplyKeepsInv | script.js:282-364 | Every frame, timer firing, key, pointer, button or selector event keeps the invariant and never enters `GameOver`. |
| PongMatch.RunKeepsInv | script.js:282-364 | Any sequence of events keeps the invariant, and a game not yet in `GameOver` never reaches it. |
| PongEngine.PongGame.constructor | script.js:41-80 | The object starts on the welcome screen, paused, with 0-0 scores, Medium difficulty, the name "Player", the stored high score and centred paddles, and it is valid. |
| PongEngine.PongGame.CheckAndUpdateHighScore | script.js:66-72 | The high score becomes the larger of itself and the player's score. Nothing else changes. |
| PongEngine.PongGame.ResetBall | script.js:83-89 | The ball is placed at the centre with a horizontal speed of exactly the difficulty's serve speed and a vertical speed of at most that speed. Nothing else changes. |
| PongEngine.PongGame.StartCountdown | script.js:256-263 | The countdown becomes active at 3, with a single interval pending. The clear at line 257 followed by the new interval is recorded by setting the one flag. |
| PongEngine.PongGame.CountdownTick | script.js:264-274 | A pending interval's firing lowers the counter by exactly one. Below zero it clears the interval and the countdown and unpauses the game. |
| PongEngine.PongGame.KeyboardPaddleControl | script.js:293-298 | The held arrows move the player's paddle by 8 each, and the result is clamped onto the board. |
| PongEngine.PongGame.AdvanceBall | script.js:161-167 | The ball moves by its speed, and a wall touch flips its vertical speed once. |
| PongEngine.PongGame.ScoreLeftEdge | script.js:169-182 | The AI's point for a ball past the left edge, followed by a pause, or by a re-serve and a countdown when the point does not win. |
| PongEngine.PongGame.ScoreRightEdge | script.js:184-198 | The player's point, the high-score update and the pause for a ball past the right edge, then a re-serve and a countdown when the point does not win. |
| PongEngine.PongGame.ReboundOffPaddles | script.js:200-212 | A strict-band hit on the player's paddle, then on the AI's, reverses the ball and sets its spin. |
| PongEngine.PongGame.MoveAiPaddle | script.js:214-219 | The AI paddle makes its dead-zone chase step and is clamped onto the board. |
| PongEngine.PongGame.MoveEverything | script.js:158-222 | A frame leaves the object equal to the frame function of its old state, so the frame lemmas above hold of it. The object is unchanged while paused or counting down. |
| PongEngine.PongGame.EndGame | script.js:231-240 | The game pauses and the game-over overlay shows, and `gameState` is left as it was. |
| PongEngine.PongGame.ResetGame | script.js:242-253 | Scores become 0-0, both paddles are centred, the ball is served and the game pauses. |
| PongEngine.PongGame.KeyDown | script.js:282-287 | An arrow key is recorded as held only while playing outside a countdown. |
| PongEngine.PongGame.KeyUp | script.js:288-291 | Releasing an arrow key always clears it. |
| PongEngine.PongGame.MouseMove | script.js:301-309 | While playing outside a countdown, the paddle's centre follows the pointer, clamped onto the board. Otherwise nothing changes. |
| PongEngine.PongGame.TouchMove | script.js:311-318 | The paddle's centre follows the touch, clamped onto the board, in any state. |
| PongEngine.PongGame.StartGameClick | script.js:321-328 | Records the trimmed name or "Player", hides the welcome screen, enters `Playing`, resets the match and starts the countdown. |
| PongEngine.PongGame.EnterMatch | script.js:322-324 | Records the name, hides the welcome screen and sets the state to `Playing`. |
| PongEngine.PongGame.PlayAgainClick | script.js:330-336 | Hides the game-over overlay, enters `Playing`, resets the match and starts the countdown. |
| PongEngine.PongGame.PauseClick | script.js:338-354 | Playing becomes Paused and paused, and Paused becomes Playing and unpaused. The button does nothing during a countdown or in any other state. |
| PongEngine.PongGame.DifficultyChange | script.js:356-364 | Stores the level and resets the match. A countdown starts only when a match was under way. |

## Left out

- `audio.js` is not part of this model. The sound effects and the background music rotation are omitted, and they never affect the game's state.
- Rendering is omitted: the canvas drawing, the score, high-score and button texts, and the game-over message. The welcome and game-over overlays are kept only as two visibility flags.
- Scheduling is omitted: `requestAnimationFrame`, the animation frame id and `gameLoop`. A frame is an explicit `MoveEverything` call. The model therefore does not capture the extra frame loop that resuming from `Paused` starts next to a running one. Nor does it capture the loop that is never restarted: `resetGame` cancels the pending frame without clearing its id (line 251), so after a difficulty change mid-match the countdown's end (line 272) does not restart the loop. The game then stays frozen, with `gamePaused` false, until the player pauses and resumes. In the model a frame can always be applied.
- PauseClick, CountdownTick, CountdownSequence, PauseTwiceAfterEndGame: the resume branch of the pause button (line 351) calls `gameLoop`, and so does the last countdown firing when no frame id is set (line 272). Both run one frame before the handler returns. This happens after Start, and after Play again because `endGame` clears the id at line 234. The model leaves that frame to the next `FrameTick` event, so these members describe the handler's state before that frame. `ResumeAfterWinScoresAgain` shows the combined outcome for a resume after a won match.
- The one-second countdown interval and the 500 ms delay before `endGame` are omitted. The interval's body is `CountdownTick` and the delayed call is `EndGame`, both invoked explicitly. The interval handle is a single "pending" flag.
- `localStorage` is not modelled. The constructor takes the stored high score as a parameter, and the write-back is omitted.
- `getBoundingClientRect` is not modelled. `MouseMove` and `TouchMove` take the height relative to the board as a parameter.
- `Math.random` is not modelled. Each serve takes its two draws as parameters in [0, 1).
- IEEE-754 doubles are not modelled. Positions and speeds are exact reals, so the model makes no claim of bit-exact agreement with JavaScript.
- Before the first serve, the ball's position is `undefined` in the script. The model uses 0, which no routine reads before the first serve.
- The difficulty selector is taken to offer only its three levels. An unknown value, which would make the script fail on a missing table entry, is not modelled.
