/** The whole mutable state of script.js as one value, and one pure function
    per routine or event handler giving the state it leaves behind. The class
    in engine.dfy performs the same updates field by field and is proved to
    agree with these functions; the lemmas here state what the game promises. */
module PongMatch {
  import opened PongRules

  /** The values of `gameState`. GameOver is declared by the source but no
      routine ever assigns it. */
  datatype GameState = Welcome | Playing | Paused | GameOver

  datatype Key = ArrowUp | ArrowDown | OtherKey

  /** The canvas size, fixed for the lifetime of the page. */
  datatype Board = Board(width: real, height: real)

  predicate ValidBoard(b: Board)
  {
    b.width >= 0.0 && b.height >= PaddleHeight
  }

  /** `ballX`, `ballY`, `ballSpeedX`, `ballSpeedY`. */
  datatype Ball = Ball(x: real, y: real, speedX: real, speedY: real)

  /** `playerPaddleY`, `aiPaddleY`: the top edges of the two paddles. */
  datatype Paddles = Paddles(player: real, ai: real)

  /** `playerScore`, `aiScore`, `highScore`. */
  datatype Score = Score(player: nat, ai: nat, high: int)

  /** `countdownActive`, `countdownValue`, and whether the countdown interval
      is still pending (`countdownIntervalId` not yet cleared). */
  datatype Countdown = Countdown(active: bool, value: int, timerSet: bool)

  /** `upArrowPressed`, `downArrowPressed`. */
  datatype Controls = Controls(up: bool, down: bool)

  /** `playerName` and the visibility of the welcome and game-over overlays. */
  datatype Screen = Screen(playerName: string, welcomeShown: bool, gameOverShown: bool)

  /** Every module-level variable of script.js that the game logic reads or
      writes. */
  datatype Game = Game(
    ball: Ball, paddles: Paddles, score: Score,
    state: GameState, gamePaused: bool, countdown: Countdown,
    difficulty: Difficulty, keys: Controls, screen: Screen)

  predicate PaddleOnBoard(y: real, b: Board)
  {
    0.0 <= y <= b.height - PaddleHeight
  }

  /** What every reachable state satisfies: both paddles on the board, a
      countdown is shown exactly while its interval is pending, and its
      counter then lies in 0..3. */
  predicate Inv(g: Game, b: Board)
  {
    ValidBoard(b) &&
    PaddleOnBoard(g.paddles.player, b) && PaddleOnBoard(g.paddles.ai, b) &&
    g.countdown.active == g.countdown.timerSet &&
    (g.countdown.active ==> 0 <= g.countdown.value <= CountdownStart)
  }

  function CenteredPaddle(b: Board): real
  {
    (b.height - PaddleHeight) / 2.0
  }

  /** The state once the page has loaded: declarations plus the
      DOMContentLoaded handler. The ball position is `undefined` in the source
      until the first serve; it is 0 here and no frame reads it before then. */
  function Initial(b: Board, storedHighScore: int): Game
  {
    Game(Ball(0.0, 0.0, 0.0, 0.0),
         Paddles(CenteredPaddle(b), CenteredPaddle(b)),
         Score(0, 0, storedHighScore),
         Welcome, true,
         Countdown(false, CountdownStart, false),
         Medium,
         Controls(false, false),
         Screen(DefaultPlayerName, true, false))
  }

  // ---------------------------------------------------------------------------
  // Serving, high score, countdown

  /** A ball at the centre of the board with a fresh serve velocity. */
  function Serve(d: Difficulty, b: Board, draw1: real, draw2: real): Ball
    requires IsDraw(draw1) && IsDraw(draw2)
  {
    var v := ServeVelocity(d, draw1, draw2);
    Ball(b.width / 2.0, b.height / 2.0, v.0, v.1)
  }

  function ResetBall(g: Game, b: Board, draw1: real, draw2: real): Game
    requires IsDraw(draw1) && IsDraw(draw2)
  {
    g.(ball := Serve(g.difficulty, b, draw1, draw2))
  }

  function CheckAndUpdateHighScore(g: Game): Game
  {
    if g.score.player > g.score.high then g.(score := g.score.(high := g.score.player)) else g
  }

  /** Starting a countdown cancels any pending interval and schedules a new one. */
  function StartCountdown(g: Game): Game
  {
    g.(countdown := Countdown(true, CountdownStart, true))
  }

  /** One firing of the countdown interval. Once the counter drops below zero
      the interval is cleared and play resumes. No firing happens while no
      interval is pending. */
  function CountdownTick(g: Game): Game
  {
    var v := g.countdown.value - 1;
    if !g.countdown.timerSet then g
    else if v < 0 then g.(countdown := Countdown(false, v, false), gamePaused := false)
    else g.(countdown := g.countdown.(value := v))
  }

  /** n consecutive firings of the countdown interval. */
  function CountdownTicks(g: Game, n: nat): Game
    decreases n
  {
    if n == 0 then g else CountdownTicks(CountdownTick(g), n - 1)
  }

  // ---------------------------------------------------------------------------
  // The frame update, phase by phase

  function Advance(g: Game): Game
  {
    g.(ball := g.ball.(x := g.ball.x + g.ball.speedX, y := g.ball.y + g.ball.speedY))
  }

  function BounceWalls(g: Game, b: Board): Game
  {
    if HitsWall(g.ball.y, b.height) then g.(ball := g.ball.(speedY := -g.ball.speedY)) else g
  }

  /** The ball has left by the left edge: the AI scores. */
  function ScoreLeft(g: Game, b: Board, draw1: real, draw2: real): Game
    requires IsDraw(draw1) && IsDraw(draw2)
  {
    if g.ball.x < 0.0 then
      var s := g.(score := g.score.(ai := g.score.ai + 1), gamePaused := true);
      if Wins(s.score.ai, s.score.player) then s
      else StartCountdown(ResetBall(s, b, draw1, draw2))
    else g
  }

  /** The ball has left by the right edge: the player scores. */
  function ScoreRight(g: Game, b: Board, draw1: real, draw2: real): Game
    requires IsDraw(draw1) && IsDraw(draw2)
  {
    if g.ball.x > b.width then
      var s := CheckAndUpdateHighScore(g.(score := g.score.(player := g.score.player + 1))).(gamePaused := true);
      if Wins(s.score.player, s.score.ai) then s
      else StartCountdown(ResetBall(s, b, draw1, draw2))
    else g
  }

  /** A running frame once the ball has moved, bounced and both edges have
      been checked, before the paddles act. */
  function AfterScoring(g: Game, b: Board, draw1: real, draw2: real): Game
    requires IsDraw(draw1) && IsDraw(draw2)
  {
    ScoreRight(ScoreLeft(BounceWalls(Advance(g), b), b, draw1, draw2), b, draw1, draw2)
  }

  predicate HitsPlayerPaddle(g: Game)
  {
    g.ball.x - BallRadius < PaddleWidth && InPaddleBand(g.ball.y, g.paddles.player)
  }

  predicate HitsAiPaddle(g: Game, b: Board)
  {
    g.ball.x + BallRadius > b.width - PaddleWidth && InPaddleBand(g.ball.y, g.paddles.ai)
  }

  function ReboundPlayer(g: Game): Game
  {
    if HitsPlayerPaddle(g) then
      g.(ball := g.ball.(speedX := -g.ball.speedX, speedY := Spin(g.ball.y, g.paddles.player)))
    else g
  }

  function ReboundAi(g: Game, b: Board): Game
  {
    if HitsAiPaddle(g, b) then
      g.(ball := g.ball.(speedX := -g.ball.speedX, speedY := Spin(g.ball.y, g.paddles.ai)))
    else g
  }

  function ChaseBall(g: Game, b: Board): Game
    requires ValidBoard(b)
  {
    g.(paddles := g.paddles.(ai := ClampPaddle(AiChase(g.paddles.ai, g.ball.y, g.difficulty), b.height)))
  }

  function KeyboardPaddleControl(g: Game, b: Board): Game
    requires ValidBoard(b)
  {
    var y := g.paddles.player;
    var up := if g.keys.up then y - PaddleMoveSpeed else y;
    var down := if g.keys.down then up + PaddleMoveSpeed else up;
    g.(paddles := g.paddles.(player := ClampPaddle(down, b.height)))
  }

  /** The rest of a running frame: both paddle rebounds, the AI chase and the
      keyboard. */
  function PaddlePhase(g: Game, b: Board): Game
    requires ValidBoard(b)
  {
    KeyboardPaddleControl(ChaseBall(ReboundAi(ReboundPlayer(g), b), b), b)
  }

  /** The frame update. The two draws are used by the serve that follows a
      point, if there is one. */
  function MoveEverything(g: Game, b: Board, draw1: real, draw2: real): Game
    requires ValidBoard(b) && IsDraw(draw1) && IsDraw(draw2)
  {
    if g.gamePaused || g.countdown.active then g
    else PaddlePhase(AfterScoring(g, b, draw1, draw2), b)
  }

  // ---------------------------------------------------------------------------
  // Match lifecycle and handlers

  /** The delayed end of a match. It shows the game-over overlay but leaves
      `state` as it was. */
  function EndGame(g: Game): Game
  {
    g.(gamePaused := true, screen := g.screen.(gameOverShown := true))
  }

  function ResetGame(g: Game, b: Board, draw1: real, draw2: real): Game
    requires IsDraw(draw1) && IsDraw(draw2)
  {
    g.(score := g.score.(player := 0, ai := 0),
       paddles := Paddles(CenteredPaddle(b), CenteredPaddle(b)),
       ball := Serve(g.difficulty, b, draw1, draw2),
       gamePaused := true)
  }

  function KeyDown(g: Game, k: Key): Game
  {
    if g.state == Playing && !g.countdown.active then
      match k
      case ArrowUp => g.(keys := g.keys.(up := true))
      case ArrowDown => g.(keys := g.keys.(down := true))
      case OtherKey => g
    else g
  }

  function KeyUp(g: Game, k: Key): Game
  {
    match k
    case ArrowUp => g.(keys := g.keys.(up := false))
    case ArrowDown => g.(keys := g.keys.(down := false))
    case OtherKey => g
  }

  /** Pointer at board-relative height y: the paddle's centre follows it. */
  function MouseMove(g: Game, b: Board, y: real): Game
    requires ValidBoard(b)
  {
    if g.state == Playing && !g.countdown.active then
      g.(paddles := g.paddles.(player := ClampPaddle(y - PaddleHeight / 2.0, b.height)))
    else g
  }

  /** Touch at board-relative height y; unlike the mouse, never gated. */
  function TouchMove(g: Game, b: Board, y: real): Game
    requires ValidBoard(b)
  {
    g.(paddles := g.paddles.(player := ClampPaddle(y - PaddleHeight / 2.0, b.height)))
  }

  function StartClick(g: Game, b: Board, input: string, draw1: real, draw2: real): Game
    requires IsDraw(draw1) && IsDraw(draw2)
  {
    var s := g.(screen := g.screen.(playerName := PlayerNameFrom(input), welcomeShown := false),
                state := Playing);
    StartCountdown(ResetGame(s, b, draw1, draw2))
  }

  function PlayAgainClick(g: Game, b: Board, draw1: real, draw2: real): Game
    requires IsDraw(draw1) && IsDraw(draw2)
  {
    var s := g.(screen := g.screen.(gameOverShown := false), state := Playing);
    StartCountdown(ResetGame(s, b, draw1, draw2))
  }

  function PauseClick(g: Game): Game
  {
    if g.countdown.active then g
    else if g.state == Playing then g.(gamePaused := true, state := Paused)
    else if g.state == Paused then g.(gamePaused := false, state := Playing)
    else g
  }

  function DifficultyChange(g: Game, b: Board, d: Difficulty, draw1: real, draw2: real): Game
    requires IsDraw(draw1) && IsDraw(draw2)
  {
    var s := ResetGame(g.(difficulty := d), b, draw1, draw2);
    if g.state == Playing || g.state == Paused then StartCountdown(s) else s
  }

  // ---------------------------------------------------------------------------
  // Everything that can happen to the game, one event at a time

  datatype Event =
    | FrameTick(draw1: real, draw2: real)
    | CountdownFires
    | EndGameFires
    | KeyPressed(key: Key)
    | KeyReleased(key: Key)
    | MouseMoved(y: real)
    | TouchMoved(y: real)
    | StartPressed(name: string, draw1: real, draw2: real)
    | PlayAgainPressed(draw1: real, draw2: real)
    | PausePressed
    | DifficultySelected(level: Difficulty, draw1: real, draw2: real)

  predicate WellFormed(e: Event)
  {
    (e.FrameTick? || e.StartPressed? || e.PlayAgainPressed? || e.DifficultySelected?) ==>
      IsDraw(e.draw1) && IsDraw(e.draw2)
  }

  function Apply(g: Game, b: Board, e: Event): Game
    requires ValidBoard(b) && WellFormed(e)
  {
    match e
    case FrameTick(d1, d2) => MoveEverything(g, b, d1, d2)
    case CountdownFires => CountdownTick(g)
    case EndGameFires => EndGame(g)
    case KeyPressed(k) => KeyDown(g, k)
    case KeyReleased(k) => KeyUp(g, k)
    case MouseMoved(y) => MouseMove(g, b, y)
    case TouchMoved(y) => TouchMove(g, b, y)
    case StartPressed(name, d1, d2) => StartClick(g, b, name, d1, d2)
    case PlayAgainPressed(d1, d2) => PlayAgainClick(g, b, d1, d2)
    case PausePressed => PauseClick(g)
    case DifficultySelected(d, d1, d2) => DifficultyChange(g, b, d, d1, d2)
  }

  function Run(g: Game, b: Board, es: seq<Event>): Game
    requires ValidBoard(b) && forall i :: 0 <= i < |es| ==> WellFormed(es[i])
    decreases es
  {
    if es == [] then g else Run(Apply(g, b, es[0]), b, es[1..])
  }

  // ---------------------------------------------------------------------------
  // Frame properties

  /** A frame changes nothing while the game is paused or counting down. */
  lemma HeldFrameChangesNothing(g: Game, b: Board, draw1: real, draw2: real)
    requires ValidBoard(b) && IsDraw(draw1) && IsDraw(draw2)
    requires g.gamePaused || g.countdown.active
    ensures MoveEverything(g, b, draw1, draw2) == g
  {
  }

  /** After integration, touching either wall negates the vertical speed
      exactly once, keeping its magnitude, and changes nothing else. */
  lemma WallBounceFlipsOnce(g: Game, b: Board)
    ensures var a := Advance(g);
      BounceWalls(a, b) == a.(ball := a.ball.(speedY := BounceWalls(a, b).ball.speedY))
    ensures Abs(BounceWalls(Advance(g), b).ball.speedY) == Abs(g.ball.speedY)
    ensures var a := Advance(g);
      BounceWalls(a, b).ball.speedY == if HitsWall(a.ball.y, b.height) then -g.ball.speedY else g.ball.speedY
  {
  }

  /** A paddle hit reverses the horizontal speed and sets the vertical speed
      from the offset to the paddle's centre, below 17.5 in magnitude. */
  lemma PaddleHitRebounds(g: Game, b: Board)
    ensures HitsPlayerPaddle(g) ==>
      ReboundPlayer(g).ball.speedX == -g.ball.speedX &&
      ReboundPlayer(g).ball.speedY == (g.ball.y - (g.paddles.player + PaddleHeight / 2.0)) * SpinFactor
    ensures HitsPlayerPaddle(g) ==> Abs(ReboundPlayer(g).ball.speedY) < 17.5
    ensures HitsAiPaddle(g, b) ==>
      ReboundAi(g, b).ball.speedX == -g.ball.speedX &&
      ReboundAi(g, b).ball.speedY == (g.ball.y - (g.paddles.ai + PaddleHeight / 2.0)) * SpinFactor
    ensures HitsAiPaddle(g, b) ==> Abs(ReboundAi(g, b).ball.speedY) < 17.5
  {
  }

  /** A board at least this wide never lets a ball served at the centre touch
      either paddle's x-plane in the frame of the serve. */
  const MinServeWidth: real := 2.0 * (BallRadius + PaddleWidth)

  /** The paddle phase of a frame changes only the ball's speeds and the
      paddles; a ball just served at the centre of a wide enough board is not
      touched at all. */
  lemma PaddlePhaseFrame(g: Game, b: Board)
    requires ValidBoard(b)
    ensures var n := PaddlePhase(g, b);
      n == g.(ball := n.ball, paddles := n.paddles)
    ensures PaddlePhase(g, b).ball.x == g.ball.x && PaddlePhase(g, b).ball.y == g.ball.y
    ensures g.ball.x == b.width / 2.0 && b.width >= MinServeWidth ==> PaddlePhase(g, b).ball == g.ball
  {
  }

  /** The ball leaves by the left edge: the AI gains exactly one point and the
      game pauses. Without a win the ball is served again from the centre at
      the difficulty's speed and a countdown starts. */
  lemma LeftEdgePoint(g: Game, b: Board, draw1: real, draw2: real)
    requires ValidBoard(b) && IsDraw(draw1) && IsDraw(draw2)
    requires !g.gamePaused && !g.countdown.active
    requires g.ball.x + g.ball.speedX < 0.0
    ensures MoveEverything(g, b, draw1, draw2).score ==
      g.score.(ai := g.score.ai + 1)
    ensures MoveEverything(g, b, draw1, draw2).gamePaused
    ensures Wins(g.score.ai + 1, g.score.player) ==>
      MoveEverything(g, b, draw1, draw2).countdown == g.countdown
    ensures !Wins(g.score.ai + 1, g.score.player) ==>
      MoveEverything(g, b, draw1, draw2).countdown == Countdown(true, CountdownStart, true)
    ensures !Wins(g.score.ai + 1, g.score.player) ==>
      MoveEverything(g, b, draw1, draw2).ball.x == b.width / 2.0 &&
      MoveEverything(g, b, draw1, draw2).ball.y == b.height / 2.0
    ensures !Wins(g.score.ai + 1, g.score.player) && b.width >= MinServeWidth ==>
      Abs(MoveEverything(g, b, draw1, draw2).ball.speedX) == BallInitialSpeed(g.difficulty) &&
      Abs(MoveEverything(g, b, draw1, draw2).ball.speedY) <= BallInitialSpeed(g.difficulty)
  {
    var w := BounceWalls(Advance(g), b);
    var l := ScoreLeft(w, b, draw1, draw2);
    assert AfterScoring(g, b, draw1, draw2) == l;
    PaddlePhaseFrame(l, b);
  }

  /** The ball leaves by the right edge: the player gains exactly one point,
      the high score becomes the larger of itself and the player's score, and
      the game pauses. Without a win the ball is served again as on the left. */
  lemma RightEdgePoint(g: Game, b: Board, draw1: real, draw2: real)
    requires ValidBoard(b) && IsDraw(draw1) && IsDraw(draw2)
    requires !g.gamePaused && !g.countdown.active
    requires g.ball.x + g.ball.speedX > b.width
    ensures MoveEverything(g, b, draw1, draw2).score ==
      Score(g.score.player + 1, g.score.ai, Max(g.score.high, g.score.player + 1))
    ensures MoveEverything(g, b, draw1, draw2).gamePaused
    ensures Wins(g.score.player + 1, g.score.ai) ==>
      MoveEverything(g, b, draw1, draw2).countdown == g.countdown
    ensures !Wins(g.score.player + 1, g.score.ai) ==>
      MoveEverything(g, b, draw1, draw2).countdown == Countdown(true, CountdownStart, true)
    ensures !Wins(g.score.player + 1, g.score.ai) ==>
      MoveEverything(g, b, draw1, draw2).ball.x == b.width / 2.0 &&
      MoveEverything(g, b, draw1, draw2).ball.y == b.height / 2.0
    ensures !Wins(g.score.player + 1, g.score.ai) && b.width >= MinServeWidth ==>
      Abs(MoveEverything(g, b, draw1, draw2).ball.speedX) == BallInitialSpeed(g.difficulty) &&
      Abs(MoveEverything(g, b, draw1, draw2).ball.speedY) <= BallInitialSpeed(g.difficulty)
  {
    var w := BounceWalls(Advance(g), b);
    var r := ScoreRight(w, b, draw1, draw2);
    assert AfterScoring(g, b, draw1, draw2) == r;
    PaddlePhaseFrame(r, b);
  }

  /** While the ball stays between the edges, a frame leaves the scores, the
      pause flag and the countdown alone. */
  lemma NoEdgeNoPoint(g: Game, b: Board, draw1: real, draw2: real)
    requires ValidBoard(b) && IsDraw(draw1) && IsDraw(draw2)
    requires 0.0 <= g.ball.x + g.ball.speedX <= b.width
    ensures MoveEverything(g, b, draw1, draw2).score == g.score
    ensures MoveEverything(g, b, draw1, draw2).gamePaused == g.gamePaused
    ensures MoveEverything(g, b, draw1, draw2).countdown == g.countdown
  {
    if !g.gamePaused && !g.countdown.active {
      var w := BounceWalls(Advance(g), b);
      assert AfterScoring(g, b, draw1, draw2) == w;
      PaddlePhaseFrame(w, b);
    }
  }

  /** The AI paddle ends a running frame where the chase and the clamp put it:
      still if its centre was within 35 of the ball, else one step of the
      difficulty's speed towards the ball, kept on the board. */
  lemma AiPaddleFollowsBall(g: Game, b: Board, draw1: real, draw2: real)
    requires ValidBoard(b) && IsDraw(draw1) && IsDraw(draw2)
    requires !g.gamePaused && !g.countdown.active
    ensures MoveEverything(g, b, draw1, draw2).paddles.ai ==
      ClampPaddle(AiChase(g.paddles.ai, AfterScoring(g, b, draw1, draw2).ball.y, g.difficulty), b.height)
  {
  }

  /** Holding both arrow keys leaves an on-board paddle where it is. */
  lemma BothArrowsCancel(g: Game, b: Board)
    requires Inv(g, b) && g.keys.up && g.keys.down
    ensures KeyboardPaddleControl(g, b).paddles.player == g.paddles.player
  {
  }

  // ---------------------------------------------------------------------------
  // Countdown properties

  /** Ticks after the interval was cleared change nothing. */
  lemma {:induction false} TicksWithoutTimer(g: Game, n: nat)
    requires !g.countdown.timerSet
    ensures CountdownTicks(g, n) == g
    decreases n
  {
    if n > 0 {
      TicksWithoutTimer(CountdownTick(g), n - 1);
    }
  }

  /** From a running countdown showing v, the first v ticks only lower the
      counter, and the next one ends the countdown and resumes play. */
  lemma {:induction false} TicksFrom(g: Game, n: nat)
    requires g.countdown.timerSet && g.countdown.value >= 0
    ensures n <= g.countdown.value ==>
      CountdownTicks(g, n) == g.(countdown := g.countdown.(value := g.countdown.value - n))
    ensures n > g.countdown.value ==>
      CountdownTicks(g, n) == g.(countdown := Countdown(false, -1, false), gamePaused := false)
    decreases n
  {
    if n > 0 {
      var t := CountdownTick(g);
      if g.countdown.value == 0 {
        TicksWithoutTimer(t, n - 1);
      } else {
        TicksFrom(t, n - 1);
      }
    }
  }

  /** A countdown shows 3, 2, 1, 0 over its first three ticks while still
      blocking play; the fourth tick clears it and unpauses the game; later
      ticks do nothing. Nothing else changes. */
  lemma CountdownSequence(g: Game, n: nat)
    ensures n <= 3 ==>
      CountdownTicks(StartCountdown(g), n) == g.(countdown := Countdown(true, 3 - n, true))
    ensures n >= 4 ==>
      CountdownTicks(StartCountdown(g), n) == g.(countdown := Countdown(false, -1, false), gamePaused := false)
  {
    TicksFrom(StartCountdown(g), n);
  }

  /** Restarting a countdown that is still running gives the same state as
      starting it afresh: the earlier interval leaves no trace, so only one
      completion follows. */
  lemma RestartCountdown(g: Game, k: nat)
    requires k <= 3
    ensures StartCountdown(CountdownTicks(StartCountdown(g), k)) == StartCountdown(g)
  {
    TicksFrom(StartCountdown(g), k);
  }

  // ---------------------------------------------------------------------------
  // Pause button

  lemma PauseIgnoredDuringCountdown(g: Game)
    requires g.countdown.active
    ensures PauseClick(g) == g
  {
  }

  /** Outside a countdown, with the pause flag matching the state, two presses
      bring `state` and `gamePaused` back to where they were. */
  lemma PauseTwiceRestores(g: Game)
    requires !g.countdown.active
    requires g.state == Playing ==> !g.gamePaused
    requires g.state == Paused ==> g.gamePaused
    ensures PauseClick(PauseClick(g)) == g
  {
  }

  /** When a match has been won the state is still Playing: two pause presses
      then clear the pause flag, so frames run again with the ball still
      beyond the edge. */
  lemma PauseTwiceAfterEndGame(g: Game)
    requires g.state == Playing && !g.countdown.active
    ensures PauseClick(PauseClick(EndGame(g))).state == Playing
    ensures !PauseClick(PauseClick(EndGame(g))).gamePaused
  {
  }

  /** What the resume press after a won match leads to: the frame that the
      script runs at once from the handler finds the ball still past the left
      edge, so the AI scores again and the game is paused again. */
  lemma ResumeAfterWinScoresAgain(g: Game, b: Board, draw1: real, draw2: real)
    requires ValidBoard(b) && IsDraw(draw1) && IsDraw(draw2)
    requires g.state == Playing && !g.countdown.active
    requires g.ball.x < 0.0 && g.ball.speedX <= 0.0
    ensures MoveEverything(PauseClick(PauseClick(EndGame(g))), b, draw1, draw2).gamePaused
    ensures MoveEverything(PauseClick(PauseClick(EndGame(g))), b, draw1, draw2).score.ai == g.score.ai + 1
  {
    var r := PauseClick(PauseClick(EndGame(g)));
    LeftEdgePoint(r, b, draw1, draw2);
  }

  // ---------------------------------------------------------------------------
  // Handlers

  /** Start: the match begins at 0-0 with centred paddles, a served ball,
      a running countdown and a non-blank player name. */
  lemma StartBeginsMatch(g: Game, b: Board, input: string, draw1: real, draw2: real)
    requires IsDraw(draw1) && IsDraw(draw2)
    ensures StartClick(g, b, input, draw1, draw2).state == Playing
    ensures StartClick(g, b, input, draw1, draw2).score == Score(0, 0, g.score.high)
    ensures StartClick(g, b, input, draw1, draw2).paddles == Paddles(CenteredPaddle(b), CenteredPaddle(b))
    ensures StartClick(g, b, input, draw1, draw2).ball.x == b.width / 2.0
    ensures StartClick(g, b, input, draw1, draw2).ball.y == b.height / 2.0
    ensures StartClick(g, b, input, draw1, draw2).gamePaused
    ensures StartClick(g, b, input, draw1, draw2).countdown == Countdown(true, CountdownStart, true)
    ensures StartClick(g, b, input, draw1, draw2).screen.playerName != []
  {
  }

  /** Changing difficulty resets the match under the new level; a countdown
      follows only when a match was under way (Playing or Paused), and the
      state itself is left as it was. */
  lemma DifficultyResetsMatch(g: Game, b: Board, d: Difficulty, draw1: real, draw2: real)
    requires IsDraw(draw1) && IsDraw(draw2)
    ensures DifficultyChange(g, b, d, draw1, draw2).difficulty == d
    ensures DifficultyChange(g, b, d, draw1, draw2).state == g.state
    ensures DifficultyChange(g, b, d, draw1, draw2).score == Score(0, 0, g.score.high)
    ensures DifficultyChange(g, b, d, draw1, draw2).gamePaused
    ensures Abs(DifficultyChange(g, b, d, draw1, draw2).ball.speedX) == BallInitialSpeed(d)
    ensures g.state == Playing || g.state == Paused ==>
      DifficultyChange(g, b, d, draw1, draw2).countdown == Countdown(true, CountdownStart, true)
    ensures g.state != Playing && g.state != Paused ==>
      DifficultyChange(g, b, d, draw1, draw2).countdown == g.countdown
  {
  }

  // ---------------------------------------------------------------------------
  // Invariant

  lemma InitialSatisfiesInv(b: Board, storedHighScore: int)
    requires ValidBoard(b)
    ensures Inv(Initial(b, storedHighScore), b)
    ensures Initial(b, storedHighScore).state == Welcome
  {
  }

  /** A running frame keeps the invariant. */
  lemma MoveEverythingKeepsInv(g: Game, b: Board, draw1: real, draw2: real)
    requires Inv(g, b) && IsDraw(draw1) && IsDraw(draw2)
    ensures Inv(MoveEverything(g, b, draw1, draw2), b)
    ensures MoveEverything(g, b, draw1, draw2).state == g.state
  {
    if !g.gamePaused && !g.countdown.active {
      var s := AfterScoring(g, b, draw1, draw2);
      assert s.countdown == g.countdown || s.countdown == Countdown(true, CountdownStart, true);
      PaddlePhaseFrame(s, b);
    }
  }

  /** Every event keeps both paddles on the board and the countdown
      consistent, and none of them ever enters GameOver. */
  lemma ApplyKeepsInv(g: Game, b: Board, e: Event)
    requires Inv(g, b) && WellFormed(e)
    ensures Inv(Apply(g, b, e), b)
    ensures Apply(g, b, e).state == GameOver ==> g.state == GameOver
  {
    match e
    case FrameTick(d1, d2) => MoveEverythingKeepsInv(g, b, d1, d2);
    case _ =>
  }

  /** Any sequence of events from a state satisfying the invariant keeps it,
      and the GameOver state is never reached. */
  lemma {:induction false} RunKeepsInv(g: Game, b: Board, es: seq<Event>)
    requires Inv(g, b) && forall i :: 0 <= i < |es| ==> WellFormed(es[i])
    ensures Inv(Run(g, b, es), b)
    ensures g.state != GameOver ==> Run(g, b, es).state != GameOver
    decreases es
  {
    if es != [] {
      ApplyKeepsInv(g, b, es[0]);
      RunKeepsInv(Apply(g, b, es[0]), b, es[1..]);
    }
  }
}
