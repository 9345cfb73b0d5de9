/** The module-level state of js/app.js as one object whose methods update
    it in place, one method per update function of the source. Each method
    is proved to leave the object in the state that the matching rule of
    PongModel gives for the state before the call. */
module Pong {
  import opened PongModel

  class Game {
    const canvas: Canvas
    var ball: Ball
    var paddle: Paddle
    var cpuPaddle: Paddle
    var playerScore: nat
    var cpuScore: nat
    var isPaused: bool
    var winner: Option<Side>
    var showIntro: bool

    /** The current state as a value. */
    function Snapshot(): State
      reads this
    {
      State(ball, paddle, cpuPaddle, playerScore, cpuScore, isPaused, winner, showIntro)
    }

    /** The object invariant: it holds between frames and clicks. */
    ghost predicate Valid()
      reads this
    {
      canvas.Valid() && Inv(canvas, Snapshot())
    }

    /** The page after loading: records at their defaults, intro shown. */
    constructor (width: int, height: int)
      requires Canvas(width, height).Valid()
      ensures canvas == Canvas(width, height)
      ensures Snapshot() == Initial(canvas) && Valid()
    {
      canvas := Canvas(width, height);
      var d := DefaultsOf(Canvas(width, height));
      ball := Ball(d.ballX, d.ballY, InitialDx, InitialDy);
      paddle := Paddle(d.paddleX, d.paddleY);
      cpuPaddle := Paddle(d.cpuX, d.cpuY);
      playerScore, cpuScore := 0, 0;
      isPaused := false;
      winner := None;
      showIntro := true;
    }

    method UpdateBallState()
      requires canvas.Valid()
      modifies this
      ensures Snapshot() == UpdateBall(canvas, old(Snapshot()))
    {
      ball := ball.(x := ball.x + ball.dx);
      ball := ball.(y := ball.y + ball.dy);

      // passes through the bottom
      if ball.y > canvas.height + ScoreMargin {
        isPaused := true;
        cpuScore := cpuScore + 1;
        return;
      }

      // passes through the top
      if ball.y < 0 - ScoreMargin {
        isPaused := true;
        playerScore := playerScore + 1;
        return;
      }

      if ball.x - BallRadius <= 0 {
        ball := ball.(dx := ball.dx * -1);
      }
      if ball.x + BallRadius >= canvas.width {
        ball := ball.(dx := ball.dx * -1);
      }

      var isWithinPaddleX := ball.x <= paddle.x + PaddleWidth + XCushion && ball.x >= paddle.x - XCushion;
      var isAtPaddleY := ball.y + BallRadius > paddle.y && ball.y + BallRadius < paddle.y + YCushion;
      var isGoingDown := ball.dy > 0;
      if isWithinPaddleX && isAtPaddleY && isGoingDown {
        ball := ball.(dy := ball.dy * -1);
      }

      var isWithinCpuX := ball.x <= cpuPaddle.x + PaddleWidth + XCushion && ball.x >= cpuPaddle.x - XCushion;
      var isAtCpuY := ball.y - BallRadius < cpuPaddle.y + PaddleHeight && ball.y - BallRadius > cpuPaddle.y - YCushion;
      var isGoingUp := ball.dy < 0;
      if isWithinCpuX && isAtCpuY && isGoingUp {
        ball := ball.(dy := ball.dy * -1);
      }
    }

    method UpdatePaddleState(pointerX: int)
      requires canvas.Valid()
      modifies this
      ensures Snapshot() == UpdatePaddle(canvas, old(Snapshot()), pointerX)
      ensures 0 <= paddle.x <= canvas.width - PaddleWidth && paddle.y == old(paddle.y)
    {
      paddle := paddle.(x := pointerX * 2 - PaddleWidth / 2);
      if paddle.x + PaddleWidth >= canvas.width {
        paddle := paddle.(x := canvas.width - PaddleWidth);
      }
      if paddle.x <= 0 {
        paddle := paddle.(x := 0);
      }
    }

    method UpdateCpuState()
      requires canvas.Valid()
      modifies this
      ensures Snapshot() == UpdateCpu(canvas, old(Snapshot()))
    {
      if isPaused {
        return;
      }
      var centerOfPaddle := cpuPaddle.x + PaddleWidth / 2;

      // the ball is moving away, so recentre
      if ball.dy > 0 {
        if centerOfPaddle > canvas.CenterX() {
          cpuPaddle := cpuPaddle.(x := cpuPaddle.x - CpuSpeed);
        }
        if centerOfPaddle < canvas.CenterX() {
          cpuPaddle := cpuPaddle.(x := cpuPaddle.x + CpuSpeed);
        }
        return;
      }

      if ball.x < centerOfPaddle {
        cpuPaddle := cpuPaddle.(x := cpuPaddle.x - CpuSpeed);
      }
      if ball.x > centerOfPaddle {
        cpuPaddle := cpuPaddle.(x := cpuPaddle.x + CpuSpeed);
      }
    }

    method ResetBall()
      requires canvas.Valid()
      modifies this
      ensures Snapshot() == PongModel.ResetBall(canvas, old(Snapshot()))
    {
      ball := ball.(x := canvas.CenterX(), y := canvas.CenterY());
      ball := ball.(dx := ball.dx * -1);
      ball := ball.(dy := Abs(ball.dy));
      isPaused := false;
    }

    method CheckForVictory()
      modifies this
      ensures Snapshot() == PongModel.CheckForVictory(old(Snapshot()))
    {
      if playerScore >= GameLength {
        winner := Some(Player);
      } else if cpuScore >= GameLength {
        winner := Some(Cpu);
      }
    }

    method ResetGame()
      requires canvas.Valid()
      modifies this
      ensures Snapshot() == PongModel.ResetGame(canvas, old(Snapshot()))
    {
      var d := DefaultsOf(canvas);
      ball := ball.(x := d.ballX, y := d.ballY);
      cpuPaddle := cpuPaddle.(x := d.cpuX, y := d.cpuY);
      playerScore := 0;
      cpuScore := 0;
      winner := None;
      isPaused := false;
    }

    /** One animation frame: `draw` without its drawing calls. */
    method Draw(pointerX: int)
      requires canvas.Valid()
      modifies this
      ensures Snapshot() == Frame(canvas, old(Snapshot()), pointerX)
      ensures old(Valid()) ==> Valid()
    {
      if showIntro {
        return;
      }
      if !isPaused {
        UpdateBallState();
      }
      UpdatePaddleState(pointerX);
      UpdateCpuState();
      CheckForVictory();
      if isPaused && winner == None {
        ResetBall();
      }
    }

    /** The click handler; leaving the intro draws a frame at once. */
    method Click(pointerX: int)
      requires canvas.Valid()
      modifies this
      ensures Snapshot() == PongModel.Click(canvas, old(Snapshot()), pointerX)
      ensures old(Valid()) ==> Valid()
    {
      if showIntro {
        showIntro := false;
        Draw(pointerX);
        return;
      }
      if winner.Some? {
        ResetGame();
      }
    }
  }
}
