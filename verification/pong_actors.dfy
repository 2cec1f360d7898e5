/**
  The separate ball and score actors against the coordinator's own tick: the two
  decompositions of one rule compute the same ball and the same score ledger, and
  ticks can be batched.
 */
module PongActors {
  import opened Prelude
  import opened PongBall
  import opened PongMatch
  import opened PongMatchRuns

  datatype BallTurn = BallTurn(context: BallContext, events: seq<BallEvent>)

  function BallTicks(c: BallContext, n: nat): BallTurn {
    if n == 0 then BallTurn(c, [])
    else
      var before := BallTicks(c, n - 1);
      var r := Advance(before.context);
      BallTurn(r.context, before.events + r.events)
  }

  /** The ball actor bounds the count where the coordinator rejects it. */
  function Iterations(count: Option<int>): nat {
    Max(1, Min(10, if count.Some? then count.value else 1))
  }

  method BallActorTick(c: BallContext, count: Option<int>) returns (turn: BallTurn)
    ensures turn == BallTicks(c, Iterations(count))
  {
    var nextContext := c;
    var events: seq<BallEvent> := [];
    for index := 0 to Iterations(count)
      invariant BallTurn(nextContext, events) == BallTicks(c, index)
    {
      var result := AdvanceBall(nextContext);
      nextContext := result.context;
      events := events + result.events;
    }
    turn := BallTurn(nextContext, events);
  }

  /** The score actor's own totals, written apart from the coordinator's. */
  function ScoreActor(score: Score, event: BallEvent): Score {
    match event
    case BallMoved(_) => score
    case Scored(p, _) =>
      var point := ScorePoint(p.scorer,
                              if p.scorer == Left then score.left + 1 else score.left,
                              if p.scorer == Right then score.right + 1 else score.right, p.rally, p.tick);
      Score(point.left, point.right, score.sequence + [point])
  }

  function FoldScore(score: Score, events: seq<BallEvent>): Score
    decreases |events|
  {
    if events == [] then score
    else ScoreActor(FoldScore(score, events[..|events| - 1]), events[|events| - 1])
  }

  lemma {:induction false} FoldAppend(score: Score, a: seq<BallEvent>, b: seq<BallEvent>)
    ensures FoldScore(score, a + b) == FoldScore(FoldScore(score, a), b)
    decreases |b|
  {
    if b == [] {
      assert a + b == a;
    } else {
      assert (a + b)[..|a + b| - 1] == a + b[..|b| - 1];
      FoldAppend(score, a, b[..|b| - 1]);
    }
  }

  lemma FoldOne(score: Score, e: BallEvent)
    ensures FoldScore(score, [e]) == ScoreActor(score, e)
  {
    assert [e][..0] == [];
  }

  lemma FoldOneTick(score: Score, c: BallContext)
    ensures var scored := FindScored(Advance(c).events);
            FoldScore(score, Advance(c).events) ==
            if scored.Some? then ApplyScoreSignal(score, scored.value) else score
  {
    var events := Advance(c).events;
    FindScoredIsHead(c);
    FoldOne(score, events[0]);
    if |events| == 2 {
      assert events == [events[0]] + [events[1]];
      FoldAppend(score, [events[0]], [events[1]]);
      FoldOne(ScoreActor(score, events[0]), events[1]);
    } else {
      assert events == [events[0]];
    }
  }

  /**
    The ball actor's ticks and the score actor's fold over its events give the coordinator's
    ball, tick and score, for every number of ticks.
   */
  lemma {:induction false} ActorsAgreeWithCoordinator(m: Match, n: nat)
    ensures var turn := BallTicks(BallContextOf(m), n); var ticked := TickTimes(m, n);
            && turn.context == BallContextOf(ticked)
            && FoldScore(m.snapshot.score, turn.events) == ticked.snapshot.score
  {
    if n > 0 {
      var before := BallTicks(BallContextOf(m), n - 1);
      ActorsAgreeWithCoordinator(m, n - 1);
      FoldAppend(m.snapshot.score, before.events, Advance(before.context).events);
      FoldOneTick(TickTimes(m, n - 1).snapshot.score, before.context);
    }
  }

  lemma {:induction false} TicksIterate(m: Match, n: nat)
    ensures TickTimes(m, n) == Iterate(TickOnce, m, n)
  {
    if n > 0 {
      TicksIterate(m, n - 1);
    }
  }

  lemma TicksAdd(m: Match, a: nat, b: nat)
    ensures TickTimes(m, a + b) == TickTimes(TickTimes(m, a), b)
  {
    TicksIterate(m, a + b);
    TicksIterate(m, a);
    TicksIterate(TickTimes(m, a), b);
    IterateAdd(TickOnce, m, a, b);
  }

  lemma AuthorityTicks(m: Match, who: string, n: int)
    requires MatchInvariant(m) && m.authority == Some(who)
    ensures Tick(m, who, m.generation, Given(n)) ==
            if 1 <= n <= 10 then Accepted(TickTimes(m, n)) else Rejected(InvalidCommand)
  {
  }

  /** Batching: accepted ticks of a and then of b are one tick of a + b, which is refused beyond ten. */
  lemma TickBatches(m: Match, who: string, a: int, b: int)
    requires MatchInvariant(m) && m.authority == Some(who) && 1 <= a <= 10 && 1 <= b <= 10
    ensures Tick(m, who, m.generation, Given(a)) == Accepted(TickTimes(m, a))
    ensures Tick(TickTimes(m, a), who, m.generation, Given(b)) == Accepted(TickTimes(m, a + b))
    ensures Tick(m, who, m.generation, Given(a + b)) ==
            if a + b <= 10 then Accepted(TickTimes(m, a + b)) else Rejected(InvalidCommand)
  {
    AuthorityTicks(m, who, a);
    AuthorityTicks(m, who, a + b);
    SecondBatch(m, who, a, b);
  }

  lemma SecondBatch(m: Match, who: string, a: nat, b: int)
    requires MatchInvariant(m) && m.authority == Some(who) && 1 <= b <= 10
    ensures Tick(TickTimes(m, a), who, m.generation, Given(b)) == Accepted(TickTimes(m, a + b))
  {
    var halfway := TickTimes(m, a);
    TicksKeepAuthority(m, who, a);
    AuthorityTicks(halfway, who, b);
    TicksAdd(m, a, b);
  }

  lemma TicksKeepAuthority(m: Match, who: string, n: nat)
    requires MatchInvariant(m) && m.authority == Some(who)
    ensures MatchInvariant(TickTimes(m, n)) && TickTimes(m, n).authority == Some(who)
    ensures TickTimes(m, n).generation == m.generation
  {
    TickTimesKeeps(m, n);
  }

  /** Where the two decompositions part: beyond ten the coordinator refuses, and the ball actor stops at ten. */
  lemma ActorsCapAtTen(m: Match, n: int)
    requires n > 10
    ensures BallTicks(BallContextOf(m), Iterations(Some(n))).context == BallContextOf(TickTimes(m, 10))
  {
    ActorsAgreeWithCoordinator(m, 10);
  }
}
