/**
  The reflex controller inside the match: a turn of the browser loop is a reflex
  input for a side, any inputs of other sessions, and a one-count tick by the
  authority. On every run from a launched match the reflex side concedes nothing.
 */
module PongReflexMatch {
  import opened Prelude
  import opened PongBall
  import opened PongReflex
  import opened PongMatch
  import opened PongMatchRuns

  function PlannerSessionId(side: Side): string {
    if side == Left then "planner-left" else "planner-right"
  }

  /** The input the turn loop sends for a reflex side: none when the paddle is on target. */
  function ReflexCommand(m: Match, side: Side): seq<Command> {
    match ReflexIntent(m.snapshot.ball, m.snapshot.PaddleOf(side))
    case None => []
    case Some(i) =>
      var id := PlannerSessionId(side);
      [ApplyControllerInput(id, m.generation, Input(id, side, i.direction, i.amount))]
  }

  function RequesterOf(c: Command): Option<string> {
    match c
    case GetMatch => None
    case UnknownCommand => None
    case _ => Some(c.requester)
  }

  /** Commands of any kind from anyone but the reflex session; the authority's tick belongs to the turn itself. */
  predicate ByOthers(commands: seq<Command>, side: Side) {
    forall c :: c in commands ==> !c.TickMatch? && RequesterOf(c) != Some(PlannerSessionId(side))
  }

  datatype Turn = Turn(before: seq<Command>, after: seq<Command>)

  function PlayTurn(m: Match, side: Side, turn: Turn): Match {
    var ready := Run(m, turn.before);
    var moved := Run(Run(ready, ReflexCommand(ready, side)), turn.after);
    match moved.authority
    case None => moved
    case Some(holder) => Coordinate(moved, TickMatch(holder, moved.generation, Absent))
  }

  function PlayTurns(m: Match, side: Side, turns: seq<Turn>): Match
    decreases |turns|
  {
    if turns == [] then m
    else PlayTurn(PlayTurns(m, side, turns[..|turns| - 1]), side, turns[|turns| - 1])
  }

  /** A running match whose slot on `side` is held by the synthetic session of that side. */
  ghost predicate ReflexSeated(m: Match, side: Side) {
    && MatchInvariant(m) && m.phase == Running
    && FirstSeated(m.sessions, side).Some?
    && FirstSeated(m.sessions, side).value.sessionId == PlannerSessionId(side)
  }

  ghost predicate ReflexHolds(m: Match, side: Side) {
    ReflexSeated(m, side) && Guarded(m.snapshot.ball, side, m.snapshot.PaddleOf(side).y)
  }

  function Conceded(m: Match, side: Side): int {
    if side == Left then m.snapshot.score.right else m.snapshot.score.left
  }

  /** Nothing differs but the sessions behind the slots, such as spectators, and the paddles. */
  predicate SameField(m: Match, next: Match) {
    next == m.(sessions := next.sessions,
               snapshot := m.snapshot.(leftPaddle := next.snapshot.leftPaddle,
                                       rightPaddle := next.snapshot.rightPaddle))
  }

  lemma QuietShape(m: Match, c: Command)
    requires m.phase == Running && !c.TickMatch? && Coordinate(m, c).generation == m.generation
    ensures SameField(m, Coordinate(m, c).(controllers := m.controllers))
  {
  }

  /** A command that raises no generation in a running match, and is no tick, leaves the field alone. */
  lemma QuietCommand(m: Match, c: Command)
    requires MatchInvariant(m) && m.phase == Running && !c.TickMatch?
    requires Coordinate(m, c).generation == m.generation
    ensures SameField(m, Coordinate(m, c)) && MatchInvariant(Coordinate(m, c))
  {
    QuietShape(m, c);
    CommandKeeps(m, c);
  }

  lemma StillSeated(m: Match, next: Match, side: Side)
    requires ReflexSeated(m, side) && MatchInvariant(next) && SameField(m, next)
    ensures ReflexSeated(next, side)
  {
    SlotIsHolder(m, side);
    SlotIsHolder(next, side);
  }

  lemma OthersCannotMove(m: Match, c: Command, side: Side)
    requires ReflexSeated(m, side) && !c.TickMatch? && RequesterOf(c) != Some(PlannerSessionId(side))
    requires Coordinate(m, c).generation == m.generation
    ensures Coordinate(m, c).snapshot.PaddleOf(side) == m.snapshot.PaddleOf(side)
  {
    if Coordinate(m, c).snapshot != m.snapshot {
      OnlyOwnersMove(m, c);
      SlotIsHolder(m, side);
    }
  }

  lemma GenerationsClimb(m: Match, commands: seq<Command>, n: nat)
    requires MatchInvariant(m) && n <= |commands|
    ensures m.generation <= Run(m, commands[..n]).generation <= Run(m, commands).generation
    ensures MatchInvariant(Run(m, commands[..n])) && MatchInvariant(Run(m, commands))
  {
    assert commands[..n][..0] == [];
    GenerationFences(m, commands[..n], 0);
    GenerationFences(m, commands, n);
    MatchInvariantForever(m, commands[..n]);
    MatchInvariantForever(m, commands);
  }

  lemma {:induction false} OthersAreHarmless(m: Match, commands: seq<Command>, side: Side)
    requires ReflexSeated(m, side) && ByOthers(commands, side)
    requires Run(m, commands).generation == m.generation
    ensures var next := Run(m, commands);
            && ReflexSeated(next, side) && SameField(m, next)
            && next.snapshot.PaddleOf(side) == m.snapshot.PaddleOf(side)
    decreases |commands|
  {
    if commands != [] {
      var k := |commands| - 1;
      GenerationsClimb(m, commands, k);
      OthersAreHarmless(m, commands[..k], side);
      var before := Run(m, commands[..k]);
      QuietCommand(before, commands[k]);
      StillSeated(before, Coordinate(before, commands[k]), side);
      OthersCannotMove(before, commands[k], side);
    }
  }

  lemma ReflexInputApplies(m: Match, side: Side)
    requires ReflexSeated(m, side)
    ensures var next := Run(m, ReflexCommand(m, side));
            && ReflexSeated(next, side) && SameField(m, next)
            && next.snapshot.PaddleOf(side) == ReflexMove(m.snapshot.ball, m.snapshot.PaddleOf(side))
  {
    var cs := ReflexCommand(m, side);
    if cs != [] {
      assert cs[..0] == [];
      var holder := FirstSeated(m.sessions, side).value;
      SameIdIsSame(m.sessions, holder, FindSession(m.sessions, PlannerSessionId(side)).value);
      QuietCommand(m, cs[0]);
      StillSeated(m, Coordinate(m, cs[0]), side);
    }
  }

  lemma AuthorityTick(m: Match)
    requires MatchInvariant(m) && m.phase == Running
    ensures Coordinate(m, TickMatch(m.authority.value, m.generation, Absent)) == TickOnce(m)
  {
    assert TickTimes(m, 1) == TickOnce(TickTimes(m, 0));
  }

  lemma ReflexTick(m: Match, side: Side, before: int)
    requires ReflexSeated(m, side) && Guarded(m.snapshot.ball, side, before)
    requires ReflexPlaced(BallContextOf(m), side, before)
    ensures ReflexHolds(TickOnce(m), side) && Conceded(TickOnce(m), side) == Conceded(m, side)
  {
    ReflexTurn(BallContextOf(m), side, before);
    FindScoredIsHead(BallContextOf(m));
    TickOnceKeeps(m);
  }

  /** The generations of a turn, in order. */
  lemma TurnClimbs(m: Match, side: Side, turn: Turn)
    requires MatchInvariant(m)
    ensures var ready := Run(m, turn.before);
            var reflexed := Run(ready, ReflexCommand(ready, side));
            var moved := Run(reflexed, turn.after);
            && m.generation <= ready.generation <= reflexed.generation <= moved.generation
            && moved.generation <= PlayTurn(m, side, turn).generation
            && MatchInvariant(PlayTurn(m, side, turn))
  {
    var ready := Run(m, turn.before);
    GenerationsClimb(m, turn.before, 0);
    GenerationsClimb(ready, ReflexCommand(ready, side), 0);
    var reflexed := Run(ready, ReflexCommand(ready, side));
    GenerationsClimb(reflexed, turn.after, 0);
    var moved := Run(reflexed, turn.after);
    if moved.authority.Some? {
      CommandKeeps(moved, TickMatch(moved.authority.value, moved.generation, Absent));
    }
  }

  /** One turn keeps the guard and concedes nothing. */
  lemma ReflexTurnInMatch(m: Match, side: Side, turn: Turn)
    requires ReflexHolds(m, side) && ByOthers(turn.before, side) && ByOthers(turn.after, side)
    requires PlayTurn(m, side, turn).generation == m.generation
    ensures ReflexHolds(PlayTurn(m, side, turn), side)
    ensures Conceded(PlayTurn(m, side, turn), side) == Conceded(m, side)
    ensures PlayTurn(m, side, turn).tick == m.tick + 1
  {
    TurnClimbs(m, side, turn);
    var ready := Run(m, turn.before);
    OthersAreHarmless(m, turn.before, side);
    var reflexed := Run(ready, ReflexCommand(ready, side));
    ReflexInputApplies(ready, side);
    var moved := Run(reflexed, turn.after);
    OthersAreHarmless(reflexed, turn.after, side);
    AuthorityTick(moved);
    TickOnceKeeps(moved);
    ReflexTick(moved, side, m.snapshot.PaddleOf(side).y);
  }

  lemma {:induction false} TurnsClimb(m: Match, side: Side, turns: seq<Turn>)
    requires MatchInvariant(m)
    ensures MatchInvariant(PlayTurns(m, side, turns)) && m.generation <= PlayTurns(m, side, turns).generation
    decreases |turns|
  {
    if turns != [] {
      TurnsClimb(m, side, turns[..|turns| - 1]);
      TurnClimbs(PlayTurns(m, side, turns[..|turns| - 1]), side, turns[|turns| - 1]);
    }
  }

  lemma {:induction false} ReflexTurnsInMatch(m: Match, side: Side, turns: seq<Turn>)
    requires ReflexHolds(m, side)
    requires forall t :: t in turns ==> ByOthers(t.before, side) && ByOthers(t.after, side)
    requires PlayTurns(m, side, turns).generation == m.generation
    ensures ReflexHolds(PlayTurns(m, side, turns), side)
    ensures Conceded(PlayTurns(m, side, turns), side) == Conceded(m, side)
    ensures PlayTurns(m, side, turns).tick == m.tick + |turns|
    decreases |turns|
  {
    if turns != [] {
      var k := |turns| - 1;
      var before := PlayTurns(m, side, turns[..k]);
      TurnsClimb(m, side, turns[..k]);
      TurnClimbs(before, side, turns[k]);
      ReflexTurnsInMatch(m, side, turns[..k]);
      ReflexTurnInMatch(before, side, turns[k]);
    }
  }

  /** A match the moment it was started or restarted. */
  predicate JustLaunched(m: Match) {
    m.tick == 0 && m.snapshot == ResetSnapshot(DEFAULT_SEED + m.generation)
  }

  lemma {:induction false} TicksKeepGeneration(m: Match, n: nat)
    ensures TickTimes(m, n).generation == m.generation
  {
    if n > 0 {
      TicksKeepGeneration(m, n - 1);
    }
  }

  /** Whatever raises the generation of a match and leaves it running has launched it afresh. */
  lemma LaunchedIsFresh(m: Match, c: Command)
    requires Coordinate(m, c).phase == Running && Coordinate(m, c).generation != m.generation
    ensures JustLaunched(Coordinate(m, c))
  {
    if c.TickMatch? {
      TicksKeepGeneration(m, if c.count.Given? && c.count.value >= 0 then c.count.value else 1);
    }
  }

  /**
    A reflex side never concedes: from a launched match, over any number of turns, with any commands of
    everybody else, the score against it stays zero for as long as nobody raises the generation, which is
    to say until the match is paused, restarted, left, or loses a player.
   */
  lemma {:induction false} ReflexNeverConcedes(m: Match, side: Side, turns: seq<Turn>)
    requires ReflexSeated(m, side) && JustLaunched(m)
    requires forall t :: t in turns ==> ByOthers(t.before, side) && ByOthers(t.after, side)
    requires PlayTurns(m, side, turns).generation == m.generation
    ensures Conceded(PlayTurns(m, side, turns), side) == 0
    ensures PlayTurns(m, side, turns).tick == |turns|
  {
    ServeIsGuarded(DEFAULT_SEED + m.generation, None, side, CENTERED_Y);
    ReflexTurnsInMatch(m, side, turns);
  }

  // ---------------------------------------------------------------- both sides

  /** The turn loop with a reflex controller on each side: left first, both from one snapshot. */
  function BothReflexTurn(m: Match): Match {
    PlayTurn(m, Left, Turn([], ReflexCommand(m, Right)))
  }

  function BothReflex(m: Match, n: nat): Match { Iterate(BothReflexTurn, m, n) }

  predicate OnlyInputs(commands: seq<Command>) { forall c :: c in commands ==> c.ApplyControllerInput? }

  lemma {:induction false} InputsKeepGeneration(m: Match, commands: seq<Command>)
    requires OnlyInputs(commands)
    ensures Run(m, commands).generation == m.generation
    decreases |commands|
  {
    if commands != [] {
      InputsKeepGeneration(m, commands[..|commands| - 1]);
    }
  }

  lemma TickKeepsGeneration(m: Match, who: string)
    ensures Coordinate(m, TickMatch(who, m.generation, Absent)).generation == m.generation
  {
    TicksKeepGeneration(m, 1);
  }

  lemma BothReflexTurnKeepsGeneration(m: Match)
    ensures BothReflexTurn(m).generation == m.generation
  {
    var right := ReflexCommand(m, Right);
    InputsKeepGeneration(m, ReflexCommand(m, Left));
    var moved := Run(Run(m, ReflexCommand(m, Left)), right);
    InputsKeepGeneration(Run(m, ReflexCommand(m, Left)), right);
    if moved.authority.Some? {
      TickKeepsGeneration(moved, moved.authority.value);
    }
  }

  /** Seen from the right, the same turn is: the left input, then the right reflex, then the tick. */
  lemma BothReflexTurnFromRight(m: Match)
    requires ReflexSeated(m, Left) && ReflexSeated(m, Right)
    ensures BothReflexTurn(m) == PlayTurn(m, Right, Turn(ReflexCommand(m, Left), []))
  {
    var left := ReflexCommand(m, Left);
    InputsKeepGeneration(m, left);
    OthersAreHarmless(m, left, Right);
    assert ReflexCommand(Run(m, left), Right) == ReflexCommand(m, Right);
  }

  ghost predicate BothHold(m: Match, conceded: int) {
    && ReflexHolds(m, Left) && ReflexHolds(m, Right)
    && Conceded(m, Left) == Conceded(m, Right) == conceded
  }

  lemma BothReflexTurnHolds(m: Match, conceded: int)
    requires BothHold(m, conceded)
    ensures BothHold(BothReflexTurn(m), conceded)
  {
    BothReflexTurnKeepsGeneration(m);
    ReflexTurnInMatch(m, Left, Turn([], ReflexCommand(m, Right)));
    BothReflexTurnFromRight(m);
    ReflexTurnInMatch(m, Right, Turn(ReflexCommand(m, Left), []));
  }

  lemma BothReflexHolds(m: Match, n: nat, conceded: int)
    requires BothHold(m, conceded)
    ensures BothHold(BothReflex(m, n), conceded)
  {
    forall y: Match | BothHold(y, conceded) ensures BothHold(BothReflexTurn(y), conceded) {
      BothReflexTurnHolds(y, conceded);
    }
    IterateKeeps(BothReflexTurn, y => BothHold(y, conceded), m, n);
  }

  lemma LaunchedHolds(m: Match)
    requires ReflexSeated(m, Left) && ReflexSeated(m, Right) && JustLaunched(m)
    ensures BothHold(m, 0)
  {
    ServeIsGuarded(DEFAULT_SEED + m.generation, None, Left, CENTERED_Y);
    ServeIsGuarded(DEFAULT_SEED + m.generation, None, Right, CENTERED_Y);
  }

  lemma NothingConceded(m: Match)
    requires BothHold(m, 0)
    ensures m.snapshot.score == INITIAL_SCORE
  {
    TallyIsTotal(m.snapshot.score.sequence);
  }

  /** Reflex against reflex never scores: the ledger stays empty for ever. */
  lemma ReflexAgainstReflexNeverScores(m: Match, n: nat)
    requires ReflexSeated(m, Left) && ReflexSeated(m, Right) && JustLaunched(m)
    ensures BothReflex(m, n).snapshot.score == INITIAL_SCORE
  {
    LaunchedHolds(m);
    BothReflexHolds(m, n, 0);
    NothingConceded(BothReflex(m, n));
  }

  /**
    Who ticks: while both sides are held by the synthetic sessions, the authority of a running match is one
    of the two, so a browser that ticks only as the authority never ticks that match.
   */
  lemma SyntheticSeatsHoldAuthority(m: Match)
    requires ReflexSeated(m, Left) && ReflexSeated(m, Right)
    ensures m.authority == Some(PlannerSessionId(Left)) || m.authority == Some(PlannerSessionId(Right))
  {
    var seat :| seat in m.sessions && seat.sessionId == m.authority.value && seat.side.Some?;
    assert seat.side.value == Left || seat.side.value == Right;
    HolderIsFirst(m.sessions, seat, seat.side.value);
  }
}
