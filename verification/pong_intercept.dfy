/**
  The reflex predictor, which never calls the simulation, and the proof that it
  agrees with the simulation: same height, same tick, and the paddle it asks for
  always returns the ball.
 */
module PongIntercept {
  import opened Prelude
  import opened PongBall

  /** A height and a vertical speed, the two variables the predictor's loop updates. */
  datatype Lane = Lane(y: int, vy: int)

  function StepLane(lane: Lane, radius: int): Lane {
    var y := lane.y + lane.vy;
    if y - radius <= 0 || y + radius >= HEIGHT then
      Lane(Max(radius, Min(HEIGHT - radius, y)), -lane.vy)
    else Lane(y, lane.vy)
  }

  function ProjectLane(lane: Lane, radius: int, steps: nat): Lane {
    if steps == 0 then lane else StepLane(ProjectLane(lane, radius, steps - 1), radius)
  }

  function ProjectY(ball: Ball, steps: nat): int {
    ProjectLane(Lane(ball.y, ball.vy), ball.radius, steps).y
  }

  method ProjectBallY(ball: Ball, steps: int) returns (projected: int)
    ensures projected == ProjectY(ball, if steps < 0 then 0 else steps)
  {
    var y := ball.y;
    var vy := ball.vy;
    var step := 0;
    while step < steps
      invariant 0 <= step && (step <= steps || step == 0)
      invariant Lane(y, vy) == ProjectLane(Lane(ball.y, ball.vy), ball.radius, step)
    {
      y := y + vy;
      if y - ball.radius <= 0 || y + ball.radius >= HEIGHT {
        y := Max(ball.radius, Min(HEIGHT - ball.radius, y));
        vy := -vy;
      }
      step := step + 1;
    }
    projected := y;
  }

  /** The least whole number that is not below `a / b`. */
  function CeilDiv(a: int, b: int): int
    requires b > 0
  {
    (a + b - 1) / b
  }

  function Distance(ball: Ball, side: Side): int {
    Abs(FaceX(side, ball.radius) - ball.x)
  }

  function PredictedSteps(ball: Ball, side: Side): nat {
    Max(0, CeilDiv(Distance(ball, side), Max(1, Abs(ball.vx))))
  }

  function InterceptFor(y: int): int { ClampPaddleY(y - PADDLE_HEIGHT / 2) }

  function ResolveIntercept(ball: Ball, side: Side): Option<int> {
    if !Toward(ball, side) then None
    else Some(InterceptFor(ProjectY(ball, PredictedSteps(ball, side))))
  }

  // ---------------------------------------------------------------- agreement

  /** A ball that has not left the field, of a size that fits between the two faces. */
  predicate Field(ball: Ball) {
    0 <= ball.radius <= 100 && -ball.radius <= ball.x <= WIDTH + ball.radius
  }

  predicate AtOrShortOfFace(ball: Ball, side: Side) {
    if side == Left then ball.x >= FaceX(Left, ball.radius) else ball.x <= FaceX(Right, ball.radius)
  }

  predicate ShortOfFace(ball: Ball, side: Side) {
    AtOrShortOfFace(ball, side) && ball.x != FaceX(side, ball.radius)
  }

  /** The simulation's own test that the next tick takes the ball across the face it moves to. */
  predicate CrossesNext(ball: Ball, side: Side) {
    && Toward(ball, side)
    && AtOrShortOfFace(ball, side)
    && (if side == Left then ball.x + ball.vx <= FaceX(Left, ball.radius)
        else ball.x + ball.vx >= FaceX(Right, ball.radius))
  }

  /** Free flight for a number of ticks: no paddles, no points. */
  function FlyFor(ball: Ball, n: nat): Ball {
    if n == 0 then ball else Fly(FlyFor(ball, n - 1))
  }

  lemma {:induction false} FlightIsProjection(ball: Ball, n: nat)
    ensures var b := FlyFor(ball, n);
            && Lane(b.y, b.vy) == ProjectLane(Lane(ball.y, ball.vy), ball.radius, n)
            && b.vx == ball.vx && b.radius == ball.radius
            && b.rally == ball.rally + n && b.seed == ball.seed
  {
    if n > 0 {
      FlightIsProjection(ball, n - 1);
    }
  }

  lemma {:induction false} FlyAhead(ball: Ball, n: nat)
    ensures FlyFor(Fly(ball), n) == FlyFor(ball, n + 1)
  {
    if n > 0 {
      FlyAhead(ball, n - 1);
    }
  }

  /** Before the crossing tick the paddles do not matter: one tick of the match is one tick of flight. */
  lemma QuietTick(c: BallContext, side: Side)
    requires Field(c.ball) && Toward(c.ball, side) && AtOrShortOfFace(c.ball, side)
    requires !CrossesNext(c.ball, side)
    ensures Advance(c) == AdvanceResult(c.(ball := Fly(c.ball), tick := c.tick + 1), [BallMoved(Fly(c.ball))])
    ensures ShortOfFace(Fly(c.ball), side) && Field(Fly(c.ball))
  {
  }

  /** On the crossing tick the paddle decides: it returns the ball exactly when it covers the ball's height. */
  lemma CrossingTick(c: BallContext, side: Side)
    requires Field(c.ball) && CrossesNext(c.ball, side)
    ensures Covers(c.PaddleY(side), Fly(c.ball).y) ==>
              Advance(c) == (var hit := Fly(c.ball).(x := FaceX(side, c.ball.radius), vx := -c.ball.vx);
                             AdvanceResult(c.(ball := hit, tick := c.tick + 1), [BallMoved(hit)]))
    ensures !Covers(c.PaddleY(side), Fly(c.ball).y) && ScorerOf(Fly(c.ball)).None? ==>
              Advance(c) == AdvanceResult(c.(ball := Fly(c.ball), tick := c.tick + 1), [BallMoved(Fly(c.ball))])
    ensures !Covers(c.PaddleY(side), Fly(c.ball).y) && ScorerOf(Fly(c.ball)).Some? ==>
              ScorerOf(Fly(c.ball)) == Some(side.Opponent()) && Advance(c).events[0].Scored?
              && Advance(c).events[0].point.scorer == side.Opponent()
  {
  }

  /** For a ball strictly short of the face the predictor's step count is the simulation's crossing tick. */
  lemma StepsAhead(ball: Ball, side: Side)
    requires Field(ball) && Toward(ball, side) && ShortOfFace(ball, side)
    ensures PredictedSteps(ball, side) >= 1
    ensures CrossesNext(ball, side) <==> PredictedSteps(ball, side) == 1
    ensures PredictedSteps(ball, side) > 1 ==> PredictedSteps(Fly(ball), side) == PredictedSteps(ball, side) - 1
  {
    var d, v := Distance(ball, side), Abs(ball.vx);
    CeilFacts(d, v);
    if d > v {
      assert Distance(Fly(ball), side) == d - v;
    }
  }

  lemma CeilFacts(d: int, v: int)
    requires d > 0 && v > 0
    ensures CeilDiv(d, v) >= 1
    ensures d <= v <==> CeilDiv(d, v) == 1
    ensures d > v ==> CeilDiv(d - v, v) == CeilDiv(d, v) - 1
  {
    var q := (d + v - 1) / v;
    if d <= v {
      QuotientIs(d + v - 1, v, 1);
    } else {
      var p := (d - 1) / v;
      QuotientIs(d - 1 + v, v, p + 1);
      TimesMonotone(p, 0, v);
    }
  }

  lemma QuotientIs(a: int, b: int, q: int)
    requires b > 0 && (q * b <= a < q * b + b || (a >= b && q == (a - b) / b + 1))
    ensures a / b == q
  {
    var k := a / b;
    assert a == k * b + a % b;
    assert (k + 1) * b == k * b + b && (q + 1) * b == q * b + b && (q - 1) * b == q * b - b;
    TimesMonotone(k + 1, q, b);
    TimesMonotone(q + 1, k, b);
  }

  lemma TimesMonotone(x: int, y: int, b: int)
    requires b > 0
    ensures x <= y ==> x * b <= y * b
  {
  }

  /**
    Nothing but free flight happens before the predicted tick, whatever the paddles do:
    after k ticks of the match the ball is where k ticks of flight put it, no point was
    scored, and the prediction made then is the prediction made at the start.
   */
  lemma {:induction false} FlightUntilCrossing(c: BallContext, side: Side, inputs: seq<Paddles>)
    requires Field(c.ball) && Toward(c.ball, side) && ShortOfFace(c.ball, side)
    requires |inputs| < PredictedSteps(c.ball, side)
    ensures var reached := Play(c, inputs);
            && reached.ball == FlyFor(c.ball, |inputs|) && reached.tick == c.tick + |inputs|
            && Field(reached.ball) && Toward(reached.ball, side) && ShortOfFace(reached.ball, side)
            && PredictedSteps(reached.ball, side) == PredictedSteps(c.ball, side) - |inputs|
            && ResolveIntercept(reached.ball, side) == ResolveIntercept(c.ball, side)
    decreases |inputs|
  {
    StepsAhead(c.ball, side);
    if inputs != [] {
      var placed := Place(c, inputs[0]);
      QuietTick(placed, side);
      FlyAhead(c.ball, |inputs| - 1);
      PredictionStable(c.ball, side);
      FlightUntilCrossing(Advance(placed).context, side, inputs[1..]);
    }
  }

  lemma PredictionStable(ball: Ball, side: Side)
    requires Field(ball) && Toward(ball, side) && ShortOfFace(ball, side) && PredictedSteps(ball, side) > 1
    ensures ResolveIntercept(Fly(ball), side) == ResolveIntercept(ball, side)
  {
    var n := PredictedSteps(ball, side);
    StepsAhead(ball, side);
    FlyAhead(ball, n - 1);
    FlightIsProjection(ball, n);
    FlightIsProjection(Fly(ball), n - 1);
  }

  lemma CrossingHeight(ball: Ball, n: nat)
    requires 0 <= ball.radius <= 100 && n >= 1
    ensures ball.radius <= FlyFor(ball, n).y <= HEIGHT - ball.radius
  {
    FlightIsProjection(ball, n - 1);
  }

  lemma InterceptCovers(y: int)
    requires 0 <= y <= HEIGHT
    ensures Covers(InterceptFor(y), y)
  {
  }

  /** The last tick of free flight before the crossing. */
  lemma LastFlight(ball: Ball, side: Side)
    requires Field(ball) && Toward(ball, side) && ShortOfFace(ball, side)
    ensures PredictedSteps(ball, side) >= 1
    ensures var last := FlyFor(ball, PredictedSteps(ball, side) - 1);
            && CrossesNext(last, side) && Field(last) && last.vx == ball.vx && last.radius == ball.radius
  {
    var n := PredictedSteps(ball, side);
    StepsAhead(ball, side);
    var c := BallContext(ball, 0, 0, 0);
    var quiet := seq(n - 1, i => Paddles(0, 0));
    FlightUntilCrossing(c, side, quiet);
    StepsAhead(Play(c, quiet).ball, side);
    FlightIsProjection(ball, n - 1);
  }

  lemma CrossesOnTime(ball: Ball, side: Side)
    requires Field(ball) && Toward(ball, side) && ShortOfFace(ball, side)
    ensures PredictedSteps(ball, side) >= 1
    ensures var last := FlyFor(ball, PredictedSteps(ball, side) - 1);
            && CrossesNext(last, side) && Field(last)
            && Fly(last).y == ProjectY(ball, PredictedSteps(ball, side))
            && 0 <= Fly(last).y <= HEIGHT
            && last.vx == ball.vx && last.radius == ball.radius
  {
    var n := PredictedSteps(ball, side);
    LastFlight(ball, side);
    FlightIsProjection(ball, n);
    CrossingHeight(ball, n);
    assert FlyFor(ball, n) == Fly(FlyFor(ball, n - 1));
  }

  /** A tick that sends the ball back from the face of a side. */
  predicate Returns(c: BallContext, side: Side) {
    var r := Advance(c);
    && r.context.ball.x == FaceX(side, c.ball.radius)
    && r.context.ball.vx == -c.ball.vx
    && r.events == [BallMoved(r.context.ball)]
  }

  lemma CoveredIsReturned(c: BallContext, side: Side)
    requires Field(c.ball) && CrossesNext(c.ball, side) && 0 <= Fly(c.ball).y <= HEIGHT
    ensures c.PaddleY(side) == InterceptFor(Fly(c.ball).y) ==> Returns(c, side)
  {
    InterceptCovers(Fly(c.ball).y);
    CrossingTick(c, side);
  }

  /** The match on its crossing tick: all inputs but the last were played, the last places the paddles. */
  function AtCrossing(c: BallContext, inputs: seq<Paddles>): BallContext
    requires inputs != []
  {
    Place(Play(c, inputs[..|inputs| - 1]), inputs[|inputs| - 1])
  }

  /**
    The predictor refines the simulation. The height it projects is the height of the ball
    on the tick the match decides the leg, and a paddle standing at the intercept it
    resolves returns the ball.
   */
  lemma PredictorRefinesSimulation(c: BallContext, side: Side, inputs: seq<Paddles>)
    requires Field(c.ball) && Toward(c.ball, side) && ShortOfFace(c.ball, side)
    requires |inputs| == PredictedSteps(c.ball, side)
    ensures |inputs| >= 1
    ensures var last := AtCrossing(c, inputs);
            && last.ball == FlyFor(c.ball, |inputs| - 1) && CrossesNext(last.ball, side)
            && Fly(last.ball).y == ProjectY(c.ball, |inputs|)
            && (Some(last.PaddleY(side)) == ResolveIntercept(c.ball, side) ==> Returns(last, side))
  {
    CrossesOnTime(c.ball, side);
    FlightUntilCrossing(c, side, inputs[..|inputs| - 1]);
    CoveredIsReturned(AtCrossing(c, inputs), side);
  }

  /**
    The predicted tick is the crossing tick if and only if the ball is strictly short of the
    face: at the face the prediction is one tick early, past it there is no crossing at all.
   */
  lemma PredictorExactWhenShort(ball: Ball, side: Side)
    requires Field(ball) && Toward(ball, side)
    ensures ShortOfFace(ball, side) <==>
            PredictedSteps(ball, side) >= 1 && CrossesNext(FlyFor(ball, PredictedSteps(ball, side) - 1), side)
  {
    var n := PredictedSteps(ball, side);
    if ShortOfFace(ball, side) {
      CrossesOnTime(ball, side);
    } else if AtOrShortOfFace(ball, side) {
      QuotientIs(Abs(ball.vx) - 1, Abs(ball.vx), 0);
    } else if n >= 1 {
      StaysPast(ball, side, n - 1);
    }
  }

  lemma {:induction false} StaysPast(ball: Ball, side: Side, n: nat)
    requires PastFace(ball, side)
    ensures PastFace(FlyFor(ball, n), side)
  {
    if n > 0 {
      StaysPast(ball, side, n - 1);
    }
  }

  /** A ball that is past the face is never brought back: the next ticks belong to the other side. */
  predicate PastFace(ball: Ball, side: Side) {
    Toward(ball, side) && !AtOrShortOfFace(ball, side)
  }

  /** The tick that gives the point away to the other side. */
  predicate Concedes(c: BallContext, side: Side) {
    Advance(c).events[0].Scored? && Advance(c).events[0].point.scorer == side.Opponent()
  }

  lemma PastFaceTick(c: BallContext, side: Side)
    requires Playable(c) && PastFace(c.ball, side)
    ensures LegBudget(c.ball) <= 3
    ensures Advance(c).events[0].Scored? ==> Concedes(c, side)
    ensures !Advance(c).events[0].Scored? ==>
              PastFace(Advance(c).context.ball, side) && LegBudget(Advance(c).context.ball) == LegBudget(c.ball) - 1
  {
  }

  lemma {:induction false} PastFaceIsLost(c: BallContext, side: Side, inputs: seq<Paddles>)
    requires Playable(c) && PastFace(c.ball, side) && |inputs| >= LegBudget(c.ball)
    ensures LegBudget(c.ball) <= 3
    ensures exists k :: 0 <= k < LegBudget(c.ball) && Concedes(Place(Play(c, inputs[..k]), inputs[k]), side)
    decreases LegBudget(c.ball)
  {
    var placed := Place(c, inputs[0]);
    LegBudgetShrinks(placed);
    PastFaceTick(placed, side);
    if Advance(placed).events[0].Scored? {
      assert Place(Play(c, inputs[..0]), inputs[0]) == placed;
    } else {
      var next := Advance(placed).context;
      AdvanceKeepsPlayable(placed);
      LegBudgetShrinks(next);
      PastFaceIsLost(next, side, inputs[1..]);
      var k :| 0 <= k < LegBudget(next.ball) && Concedes(Place(Play(next, inputs[1..][..k]), inputs[1..][k]), side);
      PlayTail(c, inputs, k);
      assert Concedes(Place(Play(c, inputs[..k + 1]), inputs[k + 1]), side);
    }
  }
}
