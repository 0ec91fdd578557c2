/** The game as script.js runs it: one object holding the module-level
    variables, and one method per routine or handler that updates them in
    place, in the source's order. Each method is proved to leave the state
    that the matching function of PongMatch describes, so the lemmas proved
    there hold of this object too. */
module PongEngine {
  import opened PongRules
  import Spec = PongMatch

  class PongGame {
    // canvas size
    const width: real
    const height: real

    var ballX: real
    var ballY: real
    var ballSpeedX: real
    var ballSpeedY: real
    var playerPaddleY: real
    var aiPaddleY: real
    var playerScore: nat
    var aiScore: nat
    var highScore: int
    var gameState: Spec.GameState
    var gamePaused: bool
    var countdownActive: bool
    var countdownValue: int
    // a countdown interval is pending (its id has not been cleared)
    var countdownTimerSet: bool
    var difficultyLevel: Difficulty
    var upArrowPressed: bool
    var downArrowPressed: bool
    var playerName: string
    // visibility of the welcome and game-over overlays
    var welcomeShown: bool
    var gameOverShown: bool

    function Canvas(): Spec.Board
    {
      Spec.Board(width, height)
    }

    /** The current values of all the variables. */
    function Snapshot(): Spec.Game
      reads this
    {
      Spec.Game(
        Spec.Ball(ballX, ballY, ballSpeedX, ballSpeedY),
        Spec.Paddles(playerPaddleY, aiPaddleY),
        Spec.Score(playerScore, aiScore, highScore),
        gameState, gamePaused,
        Spec.Countdown(countdownActive, countdownValue, countdownTimerSet),
        difficultyLevel,
        Spec.Controls(upArrowPressed, downArrowPressed),
        Spec.Screen(playerName, welcomeShown, gameOverShown))
    }

    ghost predicate Valid()
      reads this
    {
      Spec.Inv(Snapshot(), Canvas())
    }

    /** Page load: the declarations of script.js followed by the
        DOMContentLoaded handler. The stored high score is what localStorage
        held (0 when nothing was stored). */
    constructor (canvasWidth: real, canvasHeight: real, storedHighScore: int)
      requires canvasWidth >= 0.0 && canvasHeight >= PaddleHeight
      ensures Valid()
      ensures Canvas() == Spec.Board(canvasWidth, canvasHeight)
      ensures Snapshot() == Spec.Initial(Canvas(), storedHighScore)
    {
      width, height := canvasWidth, canvasHeight;
      ballX, ballY, ballSpeedX, ballSpeedY := 0.0, 0.0, 0.0, 0.0;
      playerScore, aiScore := 0, 0;
      gamePaused := true;
      countdownActive := false;
      countdownValue := CountdownStart;
      countdownTimerSet := false;
      playerName := DefaultPlayerName;
      highScore := storedHighScore;
      difficultyLevel := Medium;
      gameState := Spec.Welcome;
      upArrowPressed, downArrowPressed := false, false;
      welcomeShown, gameOverShown := true, false;
      playerPaddleY := (canvasHeight - PaddleHeight) / 2.0;
      aiPaddleY := (canvasHeight - PaddleHeight) / 2.0;
    }

    method CheckAndUpdateHighScore()
      requires Valid()
      modifies this
      ensures Valid()
      ensures Snapshot() == Spec.CheckAndUpdateHighScore(old(Snapshot()))
      ensures highScore == Max(old(highScore), playerScore)
    {
      if playerScore > highScore {
        highScore := playerScore;
      }
    }

    /** Serves the ball from the centre; the draws are the two values of
        Math.random() the source takes. */
    method ResetBall(draw1: real, draw2: real)
      requires Valid() && IsDraw(draw1) && IsDraw(draw2)
      modifies this
      ensures Valid()
      ensures Snapshot() == Spec.ResetBall(old(Snapshot()), Canvas(), draw1, draw2)
      ensures ballX == width / 2.0 && ballY == height / 2.0
      ensures Abs(ballSpeedX) == BallInitialSpeed(difficultyLevel)
      ensures Abs(ballSpeedY) <= BallInitialSpeed(difficultyLevel)
    {
      var speed := BallInitialSpeed(difficultyLevel);
      ballX := width / 2.0;
      ballY := height / 2.0;
      ballSpeedX := (if draw1 > 0.5 then 1.0 else -1.0) * speed;
      ballSpeedY := (draw2 * 2.0 - 1.0) * speed;
      assert (ballSpeedX, ballSpeedY) == ServeVelocity(difficultyLevel, draw1, draw2);
    }

    /** Clearing any pending interval and scheduling a new one leaves exactly
        one pending, which the single flag records. */
    method StartCountdown()
      requires Valid()
      modifies this
      ensures Valid()
      ensures Snapshot() == Spec.StartCountdown(old(Snapshot()))
      ensures countdownActive && countdownValue == CountdownStart
    {
      countdownActive := true;
      countdownValue := CountdownStart;
      countdownTimerSet := true;
    }

    /** The body of the countdown interval, run once per firing. */
    method CountdownTick()
      requires Valid()
      modifies this
      ensures Valid()
      ensures Snapshot() == Spec.CountdownTick(old(Snapshot()))
      ensures old(countdownTimerSet) ==> countdownValue == old(countdownValue) - 1
    {
      if !countdownTimerSet {
        return;
      }
      countdownValue := countdownValue - 1;
      if countdownValue < 0 {
        countdownTimerSet := false;
        countdownActive := false;
        gamePaused := false;
      }
    }

    method KeyboardPaddleControl()
      requires Valid()
      modifies this
      ensures Valid()
      ensures Snapshot() == Spec.KeyboardPaddleControl(old(Snapshot()), Canvas())
    {
      if upArrowPressed {
        playerPaddleY := playerPaddleY - PaddleMoveSpeed;
      }
      if downArrowPressed {
        playerPaddleY := playerPaddleY + PaddleMoveSpeed;
      }
      if playerPaddleY < 0.0 {
        playerPaddleY := 0.0;
      }
      if playerPaddleY + PaddleHeight > height {
        playerPaddleY := height - PaddleHeight;
      }
    }

    /** Lines 161-167 of the frame: move the ball by its speed and bounce it
        off the top or bottom wall. */
    method AdvanceBall()
      requires Valid()
      modifies this
      ensures Valid()
      ensures Snapshot() == Spec.BounceWalls(Spec.Advance(old(Snapshot())), Canvas())
    {
      ballX := ballX + ballSpeedX;
      ballY := ballY + ballSpeedY;
      if ballY + BallRadius > height || ballY - BallRadius < 0.0 {
        ballSpeedY := -ballSpeedY;
      }
    }

    /** Lines 169-182 of the frame: a ball past the left edge is a point for
        the AI. */
    method ScoreLeftEdge(draw1: real, draw2: real)
      requires Valid() && IsDraw(draw1) && IsDraw(draw2)
      modifies this
      ensures Valid()
      ensures Snapshot() == Spec.ScoreLeft(old(Snapshot()), Canvas(), draw1, draw2)
    {
      if ballX < 0.0 {
        aiScore := aiScore + 1;
        if Wins(aiScore, playerScore) {
          gamePaused := true;
        } else {
          gamePaused := true;
          ResetBall(draw1, draw2);
          StartCountdown();
        }
      }
    }

    /** Lines 184-198 of the frame: a ball past the right edge is a point for
        the player. */
    method ScoreRightEdge(draw1: real, draw2: real)
      requires Valid() && IsDraw(draw1) && IsDraw(draw2)
      modifies this
      ensures Valid()
      ensures Snapshot() == Spec.ScoreRight(old(Snapshot()), Canvas(), draw1, draw2)
    {
      if ballX > width {
        playerScore := playerScore + 1;
        CheckAndUpdateHighScore();
        if Wins(playerScore, aiScore) {
          gamePaused := true;
        } else {
          gamePaused := true;
          ResetBall(draw1, draw2);
          StartCountdown();
        }
      }
    }

    /** Lines 200-212 of the frame: the ball rebounds off the player's paddle,
        then off the AI's. */
    method ReboundOffPaddles()
      requires Valid()
      modifies this
      ensures Valid()
      ensures Snapshot() == Spec.ReboundAi(Spec.ReboundPlayer(old(Snapshot())), Canvas())
    {
      if ballX - BallRadius < PaddleWidth && ballY > playerPaddleY && ballY < playerPaddleY + PaddleHeight {
        ballSpeedX := -ballSpeedX;
        var deltaY := ballY - (playerPaddleY + PaddleHeight / 2.0);
        ballSpeedY := deltaY * SpinFactor;
      }
      if ballX + BallRadius > width - PaddleWidth && ballY > aiPaddleY && ballY < aiPaddleY + PaddleHeight {
        ballSpeedX := -ballSpeedX;
        var deltaY := ballY - (aiPaddleY + PaddleHeight / 2.0);
        ballSpeedY := deltaY * SpinFactor;
      }
    }

    /** Lines 214-219 of the frame: the AI paddle chases the ball and is
        clamped to the board. */
    method MoveAiPaddle()
      requires Valid()
      modifies this
      ensures Valid()
      ensures Snapshot() == Spec.ChaseBall(old(Snapshot()), Canvas())
    {
      var aiCenter := aiPaddleY + PaddleHeight / 2.0;
      var aiSpeed := AiPaddleSpeed(difficultyLevel);
      if aiCenter < ballY - AiDeadZone {
        aiPaddleY := aiPaddleY + aiSpeed;
      } else if aiCenter > ballY + AiDeadZone {
        aiPaddleY := aiPaddleY - aiSpeed;
      }
      if aiPaddleY < 0.0 {
        aiPaddleY := 0.0;
      }
      if aiPaddleY + PaddleHeight > height {
        aiPaddleY := height - PaddleHeight;
      }
    }

    /** One animation frame: move the ball, bounce it off the walls, score a
        ball that left the board, rebound it off a paddle, move the AI paddle,
        then apply the arrow keys. After a point the frame carries on. */
    method MoveEverything(draw1: real, draw2: real)
      requires Valid() && IsDraw(draw1) && IsDraw(draw2)
      modifies this
      ensures Valid()
      ensures Snapshot() == Spec.MoveEverything(old(Snapshot()), Canvas(), draw1, draw2)
      ensures old(gamePaused || countdownActive) ==> Snapshot() == old(Snapshot())
    {
      if gamePaused || countdownActive {
        return;
      }
      AdvanceBall();
      ScoreLeftEdge(draw1, draw2);
      ScoreRightEdge(draw1, draw2);
      ReboundOffPaddles();
      MoveAiPaddle();
      KeyboardPaddleControl();
    }

    /** Runs when the delay after a winning point has elapsed. */
    method EndGame()
      requires Valid()
      modifies this
      ensures Valid()
      ensures Snapshot() == Spec.EndGame(old(Snapshot()))
      ensures gameState == old(gameState)
    {
      gamePaused := true;
      gameOverShown := true;
    }

    method ResetGame(draw1: real, draw2: real)
      requires Valid() && IsDraw(draw1) && IsDraw(draw2)
      modifies this
      ensures Valid()
      ensures Snapshot() == Spec.ResetGame(old(Snapshot()), Canvas(), draw1, draw2)
      ensures playerScore == 0 && aiScore == 0 && gamePaused
    {
      ghost var start := Snapshot();
      playerScore := 0;
      aiScore := 0;
      playerPaddleY := (height - PaddleHeight) / 2.0;
      aiPaddleY := (height - PaddleHeight) / 2.0;
      assert Snapshot() == start.(score := start.score.(player := 0, ai := 0),
                                  paddles := Spec.Paddles(Spec.CenteredPaddle(Canvas()), Spec.CenteredPaddle(Canvas())));
      ResetBall(draw1, draw2);
      gamePaused := true;
    }

    method KeyDown(key: Spec.Key)
      requires Valid()
      modifies this
      ensures Valid()
      ensures Snapshot() == Spec.KeyDown(old(Snapshot()), key)
    {
      if gameState == Spec.Playing && !countdownActive {
        if key == Spec.ArrowUp {
          upArrowPressed := true;
        }
        if key == Spec.ArrowDown {
          downArrowPressed := true;
        }
      }
    }

    method KeyUp(key: Spec.Key)
      requires Valid()
      modifies this
      ensures Valid()
      ensures Snapshot() == Spec.KeyUp(old(Snapshot()), key)
    {
      if key == Spec.ArrowUp {
        upArrowPressed := false;
      }
      if key == Spec.ArrowDown {
        downArrowPressed := false;
      }
    }

    /** Mouse at board-relative height y. */
    method MouseMove(y: real)
      requires Valid()
      modifies this
      ensures Valid()
      ensures Snapshot() == Spec.MouseMove(old(Snapshot()), Canvas(), y)
    {
      if gameState == Spec.Playing && !countdownActive {
        playerPaddleY := y - PaddleHeight / 2.0;
        if playerPaddleY < 0.0 {
          playerPaddleY := 0.0;
        }
        if playerPaddleY + PaddleHeight > height {
          playerPaddleY := height - PaddleHeight;
        }
      }
    }

    /** Touch at board-relative height y. */
    method TouchMove(y: real)
      requires Valid()
      modifies this
      ensures Valid()
      ensures Snapshot() == Spec.TouchMove(old(Snapshot()), Canvas(), y)
    {
      playerPaddleY := y - PaddleHeight / 2.0;
      if playerPaddleY < 0.0 {
        playerPaddleY := 0.0;
      }
      if playerPaddleY + PaddleHeight > height {
        playerPaddleY := height - PaddleHeight;
      }
    }

    /** The start button, with the text typed into the name field. */
    method StartGameClick(nameInput: string, draw1: real, draw2: real)
      requires Valid() && IsDraw(draw1) && IsDraw(draw2)
      modifies this
      ensures Valid()
      ensures Snapshot() == Spec.StartClick(old(Snapshot()), Canvas(), nameInput, draw1, draw2)
    {
      EnterMatch(PlayerNameFrom(nameInput));
      ResetGame(draw1, draw2);
      StartCountdown();
    }

    /** The first half of the start button's handler: record the name, hide
        the welcome screen and enter the playing state. */
    method EnterMatch(name: string)
      requires Valid()
      modifies this
      ensures Valid()
      ensures Snapshot() == old(Snapshot()).(screen := old(Snapshot()).screen.(playerName := name, welcomeShown := false),
                                             state := Spec.Playing)
    {
      playerName := name;
      welcomeShown := false;
      gameState := Spec.Playing;
    }

    method PlayAgainClick(draw1: real, draw2: real)
      requires Valid() && IsDraw(draw1) && IsDraw(draw2)
      modifies this
      ensures Valid()
      ensures Snapshot() == Spec.PlayAgainClick(old(Snapshot()), Canvas(), draw1, draw2)
    {
      gameOverShown := false;
      gameState := Spec.Playing;
      ResetGame(draw1, draw2);
      StartCountdown();
    }

    method PauseClick()
      requires Valid()
      modifies this
      ensures Valid()
      ensures Snapshot() == Spec.PauseClick(old(Snapshot()))
      ensures old(countdownActive) ==> Snapshot() == old(Snapshot())
    {
      if !countdownActive {
        if gameState == Spec.Playing {
          gamePaused := true;
          gameState := Spec.Paused;
        } else if gameState == Spec.Paused {
          gamePaused := false;
          gameState := Spec.Playing;
        }
      }
    }

    /** The difficulty select changed to `level`. */
    method DifficultyChange(level: Difficulty, draw1: real, draw2: real)
      requires Valid() && IsDraw(draw1) && IsDraw(draw2)
      modifies this
      ensures Valid()
      ensures Snapshot() == Spec.DifficultyChange(old(Snapshot()), Canvas(), level, draw1, draw2)
    {
      difficultyLevel := level;
      ResetGame(draw1, draw2);
      if gameState == Spec.Playing || gameState == Spec.Paused {
        StartCountdown();
      }
    }
  }
}
