/** The game state of the Pong clone in js/app.js as values, and one pure
    function per update rule. Coordinates are integers: every constant of the
    game is integral, and the canvas width and height are taken to be even so
    that the canvas centre is integral too. */
module PongModel {

  // Constants of js/app.js
  const PaddleWidth := 100
  const PaddleHeight := 30
  const BallRadius := 15
  const InitialDx := -7
  const InitialDy := 10
  const CpuSpeed := 6
  const GameLength := 5
  /** How far past the top or bottom edge the ball travels before a point is scored. */
  const ScoreMargin := 100
  /** Tolerance added to both sides of a paddle's horizontal span. */
  const XCushion := 10
  /** Depth of the band in front of a paddle where the ball's leading edge counts as a hit. */
  const YCushion := PaddleHeight
  /** Distance of each paddle row from its edge of the canvas. */
  const PaddleInset := 100

  datatype Option<T> = None | Some(value: T)

  function Abs(n: int): (r: nat)
    ensures r == n || r == -n
  {
    if n < 0 then -n else n
  }

  /** The drawing surface; only its size matters to the game rules. */
  datatype Canvas = Canvas(width: int, height: int) {
    predicate Valid() {
      width >= PaddleWidth && width % 2 == 0 && height >= 230 && height % 2 == 0
    }
    function CenterX(): int { width / 2 }
    function CenterY(): int { height / 2 }
  }

  datatype Side = Player | Cpu

  datatype Ball = Ball(x: int, y: int, dx: int, dy: int)

  datatype Paddle = Paddle(x: int, y: int)

  /** The `defaults` record: where the ball and the paddles start. */
  datatype Defaults = Defaults(ballX: int, ballY: int, paddleX: int, paddleY: int, cpuX: int, cpuY: int)

  function DefaultsOf(c: Canvas): (d: Defaults)
    requires c.Valid()
    ensures d.ballX * 2 == c.width && d.ballY * 2 == c.height
    ensures d.paddleX == d.cpuX && d.paddleX + PaddleWidth / 2 == d.ballX
    ensures 0 <= d.paddleX && d.paddleX + PaddleWidth <= c.width
    ensures 0 <= d.cpuY && d.cpuY + PaddleHeight == PaddleInset
    ensures d.paddleY + PaddleInset == c.height && d.cpuY < d.paddleY
  {
    Defaults(c.CenterX(), c.CenterY(),
             c.CenterX() - PaddleWidth / 2, c.height - PaddleInset,
             c.CenterX() - PaddleWidth / 2, PaddleInset - PaddleHeight)
  }

  /** Everything the frame loop of js/app.js reads and writes, except the
      pointer, which is an input of each frame. */
  datatype State = State(
    ball: Ball,
    paddle: Paddle,
    cpuPaddle: Paddle,
    playerScore: nat,
    cpuScore: nat,
    isPaused: bool,
    winner: Option<Side>,
    showIntro: bool)

  /** The winner the rules assign to a pair of scores; the player wins ties. */
  function WinnerOf(playerScore: nat, cpuScore: nat): (w: Option<Side>)
    ensures w == Some(Player) <==> playerScore >= GameLength
    ensures w == Some(Cpu) <==> playerScore < GameLength && cpuScore >= GameLength
  {
    if playerScore >= GameLength then Some(Player)
    else if cpuScore >= GameLength then Some(Cpu)
    else None
  }

  /** What holds between frames of a running page on a valid canvas. */
  predicate Inv(c: Canvas, s: State)
    requires c.Valid()
  {
    var d := DefaultsOf(c);
    Abs(s.ball.dx) == Abs(InitialDx) && Abs(s.ball.dy) == Abs(InitialDy) &&
    s.playerScore <= GameLength && s.cpuScore <= GameLength &&
    !(s.playerScore == GameLength && s.cpuScore == GameLength) &&
    s.winner == WinnerOf(s.playerScore, s.cpuScore) &&
    s.isPaused == s.winner.Some? &&
    s.paddle.y == d.paddleY && s.cpuPaddle.y == d.cpuY &&
    0 <= s.paddle.x <= c.width - PaddleWidth &&
    (s.cpuPaddle.x - d.cpuX) % CpuSpeed == 0 &&
    (s.showIntro ==> s.playerScore == 0 && s.cpuScore == 0)
  }

  /** The state when the page has loaded: intro shown, nothing scored. */
  function Initial(c: Canvas): (s: State)
    requires c.Valid()
    ensures Inv(c, s)
    ensures s.showIntro && s.winner == None && !s.isPaused
    ensures s.ball.dx < 0 < s.ball.dy
  {
    var d := DefaultsOf(c);
    State(Ball(d.ballX, d.ballY, InitialDx, InitialDy),
          Paddle(d.paddleX, d.paddleY), Paddle(d.cpuX, d.cpuY),
          0, 0, false, None, true)
  }

  // ---------------------------------------------------------------- ball

  predicate HitsLeftWall(b: Ball) { b.x - BallRadius <= 0 }

  predicate HitsRightWall(c: Canvas, b: Ball) { b.x + BallRadius >= c.width }

  /** The ball's centre is within the paddle's span widened by the cushion. */
  predicate WithinPaddleX(b: Ball, p: Paddle) {
    p.x - XCushion <= b.x <= p.x + PaddleWidth + XCushion
  }

  /** The ball's bottom edge is in the band just below the player paddle's top. */
  predicate AtPlayerPaddleY(b: Ball, p: Paddle) {
    p.y < b.y + BallRadius < p.y + YCushion
  }

  /** The ball's top edge is in the band from a cushion above the CPU paddle to its bottom. */
  predicate AtCpuPaddleY(b: Ball, p: Paddle) {
    p.y - YCushion < b.y - BallRadius < p.y + PaddleHeight
  }

  predicate HitsPlayerPaddle(b: Ball, p: Paddle) {
    WithinPaddleX(b, p) && AtPlayerPaddleY(b, p) && b.dy > 0
  }

  predicate HitsCpuPaddle(b: Ball, p: Paddle) {
    WithinPaddleX(b, p) && AtCpuPaddleY(b, p) && b.dy < 0
  }

  /** The bands of the two paddles cannot both hold when each paddle sits on its row. */
  predicate PaddlesOnRows(c: Canvas, s: State)
    requires c.Valid()
  {
    s.paddle.y == DefaultsOf(c).paddleY && s.cpuPaddle.y == DefaultsOf(c).cpuY
  }

  function Moved(b: Ball): Ball {
    b.(x := b.x + b.dx, y := b.y + b.dy)
  }

  predicate PassedBottom(c: Canvas, b: Ball) { b.y > c.height + ScoreMargin }

  predicate PassedTop(b: Ball) { b.y < 0 - ScoreMargin }

  /** The left-wall check, then the right-wall check, each negating dx. */
  function BounceOffWalls(c: Canvas, b: Ball): (r: Ball)
    requires c.Valid()
    ensures r.x == b.x && r.y == b.y && r.dy == b.dy
    ensures r.dx == if HitsLeftWall(b) || HitsRightWall(c, b) then -b.dx else b.dx
  {
    var b1 := if HitsLeftWall(b) then b.(dx := b.dx * -1) else b;
    if HitsRightWall(c, b1) then b1.(dx := b1.dx * -1) else b1
  }

  /** The player-paddle check, then the CPU-paddle check on the updated dy. */
  function BounceOffPaddles(b: Ball, paddle: Paddle, cpuPaddle: Paddle): (r: Ball)
    ensures r.x == b.x && r.y == b.y && r.dx == b.dx
    ensures Abs(r.dy) == Abs(b.dy)
    ensures !HitsPlayerPaddle(b, paddle) ==>
              r.dy == if HitsCpuPaddle(b, cpuPaddle) then -b.dy else b.dy
    // after a player-paddle hit the CPU paddle sees the ball going up, and may flip it back
    ensures HitsPlayerPaddle(b, paddle) ==>
              r.dy == if HitsCpuPaddle(b.(dy := -b.dy), cpuPaddle) then b.dy else -b.dy
  {
    var b1 := if HitsPlayerPaddle(b, paddle) then b.(dy := b.dy * -1) else b;
    if HitsCpuPaddle(b1, cpuPaddle) then b1.(dy := b1.dy * -1) else b1
  }

  /** updateBallState: one step of the ball, with scoring and reflections. */
  function UpdateBall(c: Canvas, s: State): (r: State)
    requires c.Valid()
    // the ball moves by exactly its velocity
    ensures r.ball.x == s.ball.x + s.ball.dx && r.ball.y == s.ball.y + s.ball.dy
    // a point for the side the ball did not leave by, and a pause
    ensures r.cpuScore == s.cpuScore + (if PassedBottom(c, Moved(s.ball)) then 1 else 0)
    ensures r.playerScore == s.playerScore +
              (if !PassedBottom(c, Moved(s.ball)) && PassedTop(Moved(s.ball)) then 1 else 0)
    ensures r.isPaused == (s.isPaused || PassedBottom(c, Moved(s.ball)) || PassedTop(Moved(s.ball)))
    // no reflection on a scoring step
    ensures PassedBottom(c, Moved(s.ball)) || PassedTop(Moved(s.ball)) ==>
              r.ball.dx == s.ball.dx && r.ball.dy == s.ball.dy
    // otherwise a wall negates dx, and a paddle hit negates dy
    ensures !PassedBottom(c, Moved(s.ball)) && !PassedTop(Moved(s.ball)) ==>
              r.ball.dx == if HitsLeftWall(Moved(s.ball)) || HitsRightWall(c, Moved(s.ball))
                           then -s.ball.dx else s.ball.dx
    ensures !PassedBottom(c, Moved(s.ball)) && !PassedTop(Moved(s.ball)) && PaddlesOnRows(c, s) ==>
              r.ball.dy == if HitsPlayerPaddle(Moved(s.ball), s.paddle) || HitsCpuPaddle(Moved(s.ball), s.cpuPaddle)
                           then -s.ball.dy else s.ball.dy
    ensures Abs(r.ball.dx) == Abs(s.ball.dx) && Abs(r.ball.dy) == Abs(s.ball.dy)
    // nothing else changes
    ensures r.paddle == s.paddle && r.cpuPaddle == s.cpuPaddle
    ensures r.winner == s.winner && r.showIntro == s.showIntro
  {
    var b := Moved(s.ball);
    if PassedBottom(c, b) then
      s.(ball := b, isPaused := true, cpuScore := s.cpuScore + 1)
    else if PassedTop(b) then
      s.(ball := b, isPaused := true, playerScore := s.playerScore + 1)
    else
      s.(ball := BounceOffPaddles(BounceOffWalls(c, b), s.paddle, s.cpuPaddle))
  }

  /** resetBall: back to the centre, dx reversed, dy pointing down, unpaused. */
  function ResetBall(c: Canvas, s: State): (r: State)
    requires c.Valid()
    ensures r.ball.x * 2 == c.width && r.ball.y * 2 == c.height
    ensures r.ball.dx == -s.ball.dx && r.ball.dy >= 0 && Abs(r.ball.dy) == Abs(s.ball.dy)
    ensures !r.isPaused
    ensures r.(ball := s.ball, isPaused := s.isPaused) == s
  {
    s.(ball := Ball(c.CenterX(), c.CenterY(), s.ball.dx * -1, Abs(s.ball.dy)), isPaused := false)
  }

  // -------------------------------------------------------------- paddles

  /** The player paddle's x for a pointer x: doubled, centred, then the
      right-wall and left-wall checks in that order. */
  function PlayerPaddleX(c: Canvas, pointerX: int): (x: int)
    requires c.Valid()
    ensures 0 <= x <= c.width - PaddleWidth
    ensures var want := pointerX * 2 - PaddleWidth / 2;
            (want <= 0 ==> x == 0) &&
            (want >= c.width - PaddleWidth ==> x == c.width - PaddleWidth) &&
            (0 < want < c.width - PaddleWidth ==> x == want)
  {
    var x0 := pointerX * 2 - PaddleWidth / 2;
    var x1 := if x0 + PaddleWidth >= c.width then c.width - PaddleWidth else x0;
    if x1 <= 0 then 0 else x1
  }

  /** updatePaddleState */
  function UpdatePaddle(c: Canvas, s: State, pointerX: int): (r: State)
    requires c.Valid()
    ensures 0 <= r.paddle.x <= c.width - PaddleWidth
    ensures r.paddle.y == s.paddle.y
    ensures r.(paddle := s.paddle) == s
  {
    s.(paddle := s.paddle.(x := PlayerPaddleX(c, pointerX)))
  }

  function CpuCentre(p: Paddle): int { p.x + PaddleWidth / 2 }

  /** Where the CPU paddle steers: the midline while the ball goes down,
      the ball otherwise. */
  function CpuTarget(c: Canvas, b: Ball): int
    requires c.Valid()
  {
    if b.dy > 0 then c.CenterX() else b.x
  }

  /** updateCpuState */
  function UpdateCpu(c: Canvas, s: State): (r: State)
    requires c.Valid()
    ensures s.isPaused ==> r == s
    ensures r.(cpuPaddle := s.cpuPaddle) == s && r.cpuPaddle.y == s.cpuPaddle.y
    ensures var target := CpuTarget(c, s.ball);
            var centre := CpuCentre(s.cpuPaddle);
            !s.isPaused ==>
              r.cpuPaddle.x == s.cpuPaddle.x + (if centre < target then CpuSpeed
                                                else if centre > target then -CpuSpeed
                                                else 0)
  {
    if s.isPaused then s
    else
      var centre := CpuCentre(s.cpuPaddle);
      var x :=
        if s.ball.dy > 0 then
          (if centre > c.CenterX() then s.cpuPaddle.x - CpuSpeed
           else if centre < c.CenterX() then s.cpuPaddle.x + CpuSpeed
           else s.cpuPaddle.x)
        else
          (if s.ball.x < centre then s.cpuPaddle.x - CpuSpeed
           else if s.ball.x > centre then s.cpuPaddle.x + CpuSpeed
           else s.cpuPaddle.x);
      s.(cpuPaddle := s.cpuPaddle.(x := x))
  }

  // -------------------------------------------------------------- phases

  /** checkForVictory, without its text overlay. */
  function CheckForVictory(s: State): (r: State)
    ensures r.winner == if WinnerOf(s.playerScore, s.cpuScore).Some?
                        then WinnerOf(s.playerScore, s.cpuScore) else s.winner
    ensures r.(winner := s.winner) == s
  {
    if s.playerScore >= GameLength then s.(winner := Some(Player))
    else if s.cpuScore >= GameLength then s.(winner := Some(Cpu))
    else s
  }

  /** resetGame: ball and CPU paddle to their defaults, scores and phase cleared. */
  function ResetGame(c: Canvas, s: State): (r: State)
    requires c.Valid()
    // the state of a freshly loaded page, except that the intro is not shown
    // again, the ball keeps its velocity and the player paddle stays put
    ensures var start := Initial(c);
            r == start.(ball := start.ball.(dx := s.ball.dx, dy := s.ball.dy),
                        paddle := s.paddle, showIntro := s.showIntro)
    ensures Inv(c, s) ==> Inv(c, r)
  {
    var d := DefaultsOf(c);
    s.(ball := s.ball.(x := d.ballX, y := d.ballY),
       cpuPaddle := Paddle(d.cpuX, d.cpuY),
       playerScore := 0, cpuScore := 0, winner := None, isPaused := false)
  }

  /** One call of `draw`, drawing set aside. */
  function Frame(c: Canvas, s: State, pointerX: int): (r: State)
    requires c.Valid()
    ensures s.showIntro ==> r == s
    ensures Inv(c, s) ==> Inv(c, r)
    // a finished game is frozen: only the player paddle follows the pointer
    ensures Inv(c, s) && s.winner.Some? ==>
              r.ball == s.ball && r.cpuPaddle == s.cpuPaddle && r.winner == s.winner &&
              r.playerScore == s.playerScore && r.cpuScore == s.cpuScore && r.isPaused
    ensures !s.showIntro ==> r.paddle == s.paddle.(x := PlayerPaddleX(c, pointerX))
    // at most one point per frame
    ensures (r.playerScore == s.playerScore && r.cpuScore == s.cpuScore) ||
            (!s.showIntro && !s.isPaused && r.playerScore == s.playerScore + 1 && r.cpuScore == s.cpuScore) ||
            (!s.showIntro && !s.isPaused && r.cpuScore == s.cpuScore + 1 && r.playerScore == s.playerScore)
    // a point that does not end the game: the ball is served again from the centre, downwards
    ensures Inv(c, s) && r.playerScore + r.cpuScore != s.playerScore + s.cpuScore && r.winner == None ==>
              r.ball.x * 2 == c.width && r.ball.y * 2 == c.height &&
              r.ball.dx == -s.ball.dx && r.ball.dy > 0 && !r.isPaused
    // a point that ends the game leaves the ball where it went out
    ensures Inv(c, s) && r.winner.Some? && s.winner == None ==>
              r.ball == Moved(s.ball) && r.isPaused &&
              (r.winner == Some(Player) <==> PassedTop(Moved(s.ball)))
    // a frame of play without a point moves the ball by its velocity
    ensures !s.showIntro && !s.isPaused && r.playerScore == s.playerScore && r.cpuScore == s.cpuScore ==>
              r.ball.x == s.ball.x + s.ball.dx && r.ball.y == s.ball.y + s.ball.dy
  {
    if s.showIntro then s
    else
      var s1 := if !s.isPaused then UpdateBall(c, s) else s;
      var s2 := UpdatePaddle(c, s1, pointerX);
      var s3 := UpdateCpu(c, s2);
      var s4 := CheckForVictory(s3);
      if s4.isPaused && s4.winner == None then ResetBall(c, s4) else s4
  }

  /** The click handler: leave the intro (and draw at once), or restart a finished game. */
  function Click(c: Canvas, s: State, pointerX: int): (r: State)
    requires c.Valid()
    ensures s.showIntro ==> r == Frame(c, s.(showIntro := false), pointerX) && !r.showIntro
    ensures !s.showIntro && s.winner.Some? ==>
              r == ResetGame(c, s) && r.playerScore == 0 && r.cpuScore == 0 && r.winner == None
    // a click during play changes nothing
    ensures !s.showIntro && s.winner == None ==> r == s
    ensures Inv(c, s) ==> Inv(c, r)
  {
    if s.showIntro then Frame(c, s.(showIntro := false), pointerX)
    else if s.winner.Some? then ResetGame(c, s)
    else s
  }
}
