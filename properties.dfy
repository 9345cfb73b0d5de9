/** Facts about the game rules of PongModel that relate several rules or
    several frames: the paddle bands never overlap, the CPU paddle comes back
    to the midline without overshooting, and over any sequence of frames and
    clicks the velocity keeps its magnitude, the scores stay within the game
    length and a finished game stays finished until a click. */
module PongProperties {
  import opened PongModel

  /** With the paddles on their rows, no ball position is in both paddles'
      bands, so a step flips dy at most once. */
  lemma PaddleBandsDisjoint(c: Canvas, s: State, b: Ball)
    requires c.Valid() && PaddlesOnRows(c, s)
    ensures !(AtPlayerPaddleY(b, s.paddle) && AtCpuPaddleY(b, s.cpuPaddle))
    ensures !(HitsPlayerPaddle(b, s.paddle) && HitsCpuPaddle(b.(dy := -b.dy), s.cpuPaddle))
  {
  }

  /** A ball can touch at most one side wall per step, so dx flips at most once. */
  lemma SideWallsDisjoint(c: Canvas, b: Ball)
    requires c.Valid()
    ensures !(HitsLeftWall(b) && HitsRightWall(c, b))
  {
  }

  /** Each CPU update while the game is unpaused and the ball travels away
      from the CPU closes on the midline by a full step and never passes it:
      the paddle's offset from its start column is a multiple of the speed. */
  lemma CpuRecentresWithoutOvershoot(c: Canvas, s: State)
    requires c.Valid() && Inv(c, s) && !s.isPaused && s.ball.dy > 0
    ensures var before := Abs(CpuCentre(s.cpuPaddle) - c.CenterX());
            var after := Abs(CpuCentre(UpdateCpu(c, s).cpuPaddle) - c.CenterX());
            after == if before == 0 then 0 else before - CpuSpeed
  {
  }

  /** The same at the level of a whole frame: a frame of play in which the
      ball goes down and neither scores nor meets the player paddle brings
      the CPU paddle a full step closer to the midline, or leaves it there. */
  lemma FrameRecentresCpu(c: Canvas, s: State, pointerX: int)
    requires c.Valid() && Inv(c, s) && !s.showIntro && s.winner == None && s.ball.dy > 0
    requires !PassedBottom(c, Moved(s.ball)) && !PassedTop(Moved(s.ball))
    requires !HitsPlayerPaddle(Moved(s.ball), s.paddle)
    ensures var before := Abs(CpuCentre(s.cpuPaddle) - c.CenterX());
            var after := Abs(CpuCentre(Frame(c, s, pointerX).cpuPaddle) - c.CenterX());
            after == if before == 0 then 0 else before - CpuSpeed
  {
  }

  /** Checking for victory twice is checking once. */
  lemma CheckForVictoryIdempotent(s: State)
    ensures CheckForVictory(CheckForVictory(s)) == CheckForVictory(s)
  {
  }

  /** The first click on a freshly loaded page starts play: the intro goes,
      the ball makes its first move and nothing is scored. */
  lemma FirstClickStartsPlay(c: Canvas, pointerX: int)
    requires c.Valid()
    ensures var r := Click(c, Initial(c), pointerX);
            !r.showIntro && !r.isPaused && r.winner == None &&
            r.playerScore == 0 && r.cpuScore == 0 &&
            r.ball.x == Initial(c).ball.x + InitialDx && r.ball.y == Initial(c).ball.y + InitialDy &&
            r.ball.dx == InitialDx
  {
  }

  /** What the browser delivers to the page: an animation frame or a click,
      each seeing the pointer's current x. */
  datatype Event = AnimationFrame(pointerX: int) | PointerClick(pointerX: int)

  function Step(c: Canvas, s: State, e: Event): (r: State)
    requires c.Valid()
    ensures Inv(c, s) ==> Inv(c, r)
  {
    match e
    case AnimationFrame(p) => Frame(c, s, p)
    case PointerClick(p) => Click(c, s, p)
  }

  /** The state after a sequence of events, applied in order. */
  function Run(c: Canvas, s: State, events: seq<Event>): State
    requires c.Valid()
    decreases |events|
  {
    if events == [] then s else Run(c, Step(c, s, events[0]), events[1..])
  }

  lemma {:induction false} RunPreservesInv(c: Canvas, s: State, events: seq<Event>)
    requires c.Valid() && Inv(c, s)
    ensures Inv(c, Run(c, s, events))
    decreases |events|
  {
    if events != [] {
      RunPreservesInv(c, Step(c, s, events[0]), events[1..]);
    }
  }

  /** From page load, whatever happens: |dx| = 7, |dy| = 10, no score above
      the game length, and a winner exactly when a score has reached it. */
  lemma GameInvariantFromLoad(c: Canvas, events: seq<Event>)
    requires c.Valid()
    ensures var r := Run(c, Initial(c), events);
            Abs(r.ball.dx) == 7 && Abs(r.ball.dy) == 10 &&
            r.playerScore <= GameLength && r.cpuScore <= GameLength &&
            (r.winner.Some? <==> r.playerScore == GameLength || r.cpuScore == GameLength) &&
            (r.winner.Some? <==> r.isPaused) &&
            0 <= r.paddle.x <= c.width - PaddleWidth
  {
    RunPreservesInv(c, Initial(c), events);
  }

  /** Frames alone never leave a finished game: the winner, the scores, the
      ball and the CPU paddle stay as they are until a click. */
  lemma {:induction false} FinishedGameIsFrozen(c: Canvas, s: State, events: seq<Event>)
    requires c.Valid() && Inv(c, s) && s.winner.Some?
    requires forall i :: 0 <= i < |events| ==> events[i].AnimationFrame?
    ensures var r := Run(c, s, events);
            r.winner == s.winner && r.playerScore == s.playerScore && r.cpuScore == s.cpuScore &&
            r.ball == s.ball && r.cpuPaddle == s.cpuPaddle && r.isPaused
    decreases |events|
  {
    if events != [] {
      FinishedGameIsFrozen(c, Step(c, s, events[0]), events[1..]);
    }
  }

  /** Frames alone never lower a score. */
  lemma {:induction false} FramesNeverLowerScores(c: Canvas, s: State, events: seq<Event>)
    requires c.Valid()
    requires forall i :: 0 <= i < |events| ==> events[i].AnimationFrame?
    ensures Run(c, s, events).playerScore >= s.playerScore
    ensures Run(c, s, events).cpuScore >= s.cpuScore
    decreases |events|
  {
    if events != [] {
      FramesNeverLowerScores(c, Step(c, s, events[0]), events[1..]);
    }
  }
}
