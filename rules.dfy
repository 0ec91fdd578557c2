/** The pure rules of the pong game: fixed dimensions, the difficulty table,
    the margin-win test, paddle clamping, the AI chase, the paddle "spin"
    rebound, the serve velocity, and the trimming of the player's name.
    Positions and speeds are exact reals (IEEE-754 rounding is not modelled). */
module PongRules {

  // Fixed dimensions and constants of script.js
  const BallRadius: real := 10.0
  const PaddleWidth: real := 10.0
  const PaddleHeight: real := 100.0
  const PaddleMoveSpeed: real := 8.0
  const SpinFactor: real := 0.35
  const AiDeadZone: real := 35.0
  const MinimumWinningScore: nat := 3
  const ScoreDifferenceToWin: nat := 2
  const CountdownStart: int := 3
  const DefaultPlayerName: string := "Player"

  function Abs(x: real): real { if x < 0.0 then -x else x }

  function Max(a: int, b: int): int { if a < b then b else a }

  // ---------------------------------------------------------------------------
  // Difficulty table

  datatype Difficulty = Easy | Medium | Hard

  /** Speed, in board units per frame, given to the ball on every serve. */
  function BallInitialSpeed(d: Difficulty): (s: real)
    ensures s > 0.0
  {
    match d
    case Easy => 5.0
    case Medium => 6.0
    case Hard => 7.0
  }

  /** Distance the AI paddle moves in one frame when it chases the ball. At
      no level is it faster than the ball is served. */
  function AiPaddleSpeed(d: Difficulty): (s: real)
    ensures 0.0 < s <= BallInitialSpeed(d)
  {
    match d
    case Easy => 3.0
    case Medium => 5.0
    case Hard => 7.0
  }

  /** The position of a level in the selector, easiest first. */
  function Rank(d: Difficulty): nat
  {
    match d
    case Easy => 0
    case Medium => 1
    case Hard => 2
  }

  // ---------------------------------------------------------------------------
  // Winning

  /** The "win by two, minimum three" test applied to the side that just scored. */
  predicate Wins(mine: nat, theirs: nat)
    ensures Wins(mine, theirs) <==> mine >= Max(MinimumWinningScore, theirs + ScoreDifferenceToWin)
  {
    mine >= MinimumWinningScore && mine - theirs >= ScoreDifferenceToWin
  }

  /** The threshold alone is not enough: the margin must be met too. */
  lemma WinsExamples()
    ensures !Wins(3, 2) && !Wins(5, 4) && !Wins(2, 0) && !Wins(3, 3)
    ensures Wins(4, 2) && Wins(3, 1) && Wins(5, 3) && Wins(3, 0)
  {
  }

  /** At most one side can satisfy the test for a given score line. */
  lemma WinsIsExclusive(a: nat, b: nat)
    ensures !(Wins(a, b) && Wins(b, a))
  {
  }

  /** The point that first makes a side win brings it exactly to
      max(3, their score + 2): points are scored one at a time. */
  lemma FirstWinningScore(mine: nat, theirs: nat)
    requires !Wins(mine, theirs) && Wins(mine + 1, theirs)
    ensures mine + 1 == Max(MinimumWinningScore, theirs + ScoreDifferenceToWin)
  {
  }

  // ---------------------------------------------------------------------------
  // Paddle geometry

  /** The two-step clamp that script.js applies after every paddle move:
      first to the top edge, then to the bottom edge. */
  function ClampPaddle(y: real, boardHeight: real): (r: real)
    requires boardHeight >= PaddleHeight
    ensures 0.0 <= r <= boardHeight - PaddleHeight
    ensures 0.0 <= y <= boardHeight - PaddleHeight ==> r == y
    ensures y < 0.0 ==> r == 0.0
    ensures y > boardHeight - PaddleHeight ==> r == boardHeight - PaddleHeight
  {
    var top := if y < 0.0 then 0.0 else y;
    if top + PaddleHeight > boardHeight then boardHeight - PaddleHeight else top
  }

  /** Where the AI paddle goes before clamping: towards the ball by its
      difficulty's speed, unless its centre is within the dead zone of the
      ball's height. */
  function AiChase(aiY: real, ballY: real, d: Difficulty): (r: real)
    ensures Abs(aiY + PaddleHeight / 2.0 - ballY) <= AiDeadZone ==> r == aiY
    ensures Abs(aiY + PaddleHeight / 2.0 - ballY) > AiDeadZone ==>
      Abs(r - aiY) == AiPaddleSpeed(d) && (r > aiY <==> aiY + PaddleHeight / 2.0 < ballY)
  {
    var center := aiY + PaddleHeight / 2.0;
    if center < ballY - AiDeadZone then aiY + AiPaddleSpeed(d)
    else if center > ballY + AiDeadZone then aiY - AiPaddleSpeed(d)
    else aiY
  }

  /** Outside the dead zone, a harder level's chase step goes the same way
      and strictly farther than an easier level's. */
  lemma HarderLevelChasesFarther(aiY: real, ballY: real, easier: Difficulty, harder: Difficulty)
    requires Rank(easier) < Rank(harder)
    requires Abs(aiY + PaddleHeight / 2.0 - ballY) > AiDeadZone
    ensures Abs(AiChase(aiY, ballY, harder) - aiY) > Abs(AiChase(aiY, ballY, easier) - aiY)
    ensures AiChase(aiY, ballY, harder) > aiY <==> AiChase(aiY, ballY, easier) > aiY
  {
  }

  /** The ball touches the top or the bottom wall. */
  predicate HitsWall(ballY: real, boardHeight: real)
  {
    ballY + BallRadius > boardHeight || ballY - BallRadius < 0.0
  }

  /** The ball lies strictly inside the vertical span of a paddle whose top is
      at paddleY. */
  predicate InPaddleBand(ballY: real, paddleY: real)
  {
    paddleY < ballY < paddleY + PaddleHeight
  }

  /** The vertical speed after a paddle hit: the offset of the ball from the
      paddle's centre, scaled by the spin factor. Inside the (strict) band the
      result is below 17.5 in magnitude and points away from the centre. */
  function Spin(ballY: real, paddleY: real): (vy: real)
    ensures InPaddleBand(ballY, paddleY) ==> Abs(vy) < SpinFactor * (PaddleHeight / 2.0)
    ensures vy > 0.0 <==> ballY > paddleY + PaddleHeight / 2.0
    ensures vy == 0.0 <==> ballY == paddleY + PaddleHeight / 2.0
  {
    (ballY - (paddleY + PaddleHeight / 2.0)) * SpinFactor
  }

  // ---------------------------------------------------------------------------
  // Serving

  /** A value returned by Math.random(). */
  predicate IsDraw(r: real) { 0.0 <= r < 1.0 }

  /** The serve velocity chosen from two random draws: a horizontal speed of
      the full initial speed in a random direction, and a vertical speed
      anywhere in [-speed, speed). */
  function ServeVelocity(d: Difficulty, draw1: real, draw2: real): (v: (real, real))
    requires IsDraw(draw1) && IsDraw(draw2)
    ensures Abs(v.0) == BallInitialSpeed(d)
    ensures v.0 > 0.0 <==> draw1 > 0.5
    ensures -BallInitialSpeed(d) <= v.1 < BallInitialSpeed(d)
  {
    var s := BallInitialSpeed(d);
    ((if draw1 > 0.5 then 1.0 else -1.0) * s, (draw2 * 2.0 - 1.0) * s)
  }

  /** For the same draws, a harder level serves in the same direction and
      strictly faster horizontally. */
  lemma HarderLevelServesFaster(easier: Difficulty, harder: Difficulty, draw1: real, draw2: real)
    requires Rank(easier) < Rank(harder) && IsDraw(draw1) && IsDraw(draw2)
    ensures Abs(ServeVelocity(harder, draw1, draw2).0) > Abs(ServeVelocity(easier, draw1, draw2).0)
    ensures ServeVelocity(harder, draw1, draw2).0 > 0.0 <==> ServeVelocity(easier, draw1, draw2).0 > 0.0
  {
  }

  // ---------------------------------------------------------------------------
  // Player name

  /** The characters JavaScript's String.prototype.trim removes: the
      WhiteSpace and LineTerminator code points. */
  predicate IsJsWhitespace(c: char)
  {
    var n := c as int;
    n == 0x09 || n == 0x0A || n == 0x0B || n == 0x0C || n == 0x0D || n == 0x20 ||
    n == 0xA0 || n == 0x1680 || (0x2000 <= n <= 0x200A) || n == 0x2028 ||
    n == 0x2029 || n == 0x202F || n == 0x205F || n == 0x3000 || n == 0xFEFF
  }

  /** s without its leading whitespace. */
  function TrimStart(s: string): (r: string)
    ensures |r| <= |s| && r == s[|s| - |r|..]
    ensures r == [] || !IsJsWhitespace(r[0])
    ensures forall i :: 0 <= i < |s| - |r| ==> IsJsWhitespace(s[i])
  {
    if s != [] && IsJsWhitespace(s[0]) then TrimStart(s[1..]) else s
  }

  /** s without its trailing whitespace. */
  function TrimEnd(s: string): (r: string)
    ensures |r| <= |s| && r == s[..|r|]
    ensures r == [] || !IsJsWhitespace(r[|r| - 1])
    ensures forall i :: |r| <= i < |s| ==> IsJsWhitespace(s[i])
  {
    if s != [] && IsJsWhitespace(s[|s| - 1]) then TrimEnd(s[..|s| - 1]) else s
  }

  /** r sits at offset k of s, and s has only whitespace outside it. */
  predicate PaddedAt(r: string, s: string, k: int)
  {
    0 <= k <= |s| - |r| && r == s[k..k + |r|] &&
    (forall i :: 0 <= i < k ==> IsJsWhitespace(s[i])) &&
    (forall i :: k + |r| <= i < |s| ==> IsJsWhitespace(s[i]))
  }

  /** String.prototype.trim: the slice of s that neither starts nor ends with
      whitespace and outside which s has only whitespace. */
  function Trim(s: string): (r: string)
    ensures r == [] || (!IsJsWhitespace(r[0]) && !IsJsWhitespace(r[|r| - 1]))
    ensures r == [] <==> forall i :: 0 <= i < |s| ==> IsJsWhitespace(s[i])
    ensures exists k :: PaddedAt(r, s, k)
  {
    var t := TrimStart(s);
    var r := TrimEnd(t);
    var k := |s| - |t|;
    assert r == s[k..k + |r|];
    assert forall i :: k + |r| <= i < |s| ==> s[i] == t[i - k];
    assert PaddedAt(r, s, k);
    r
  }

  /** The name entered on the welcome screen, with "Player" standing in for a
      blank or whitespace-only entry. */
  function PlayerNameFrom(input: string): (name: string)
    ensures name != []
    ensures (forall i :: 0 <= i < |input| ==> IsJsWhitespace(input[i])) ==> name == DefaultPlayerName
    ensures (exists i :: 0 <= i < |input| && !IsJsWhitespace(input[i])) ==>
      name == Trim(input) && !IsJsWhitespace(name[0]) && !IsJsWhitespace(name[|name| - 1])
  {
    var t := Trim(input);
    if t == [] then DefaultPlayerName else t
  }
}
