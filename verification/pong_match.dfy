/**
  The match coordinator: sessions, seats, authority and phase, guarded by a
  generation, over the ball simulation. Each function is one reducer of the
  match contract; `Coordinate` is the coordinator's dispatch.
 */
module PongMatch {
  import opened Prelude
  import opened PongBall
  import opened PongReflex

  datatype ControllerType = Human | Mlx

  datatype Mode = Mode(playerCount: int, left: ControllerType, right: ControllerType) {
    function For(side: Side): ControllerType { if side == Left then left else right }
  }

  const TWO_HUMANS := Mode(2, Human, Human)

  datatype Session = Session(sessionId: string, controller: ControllerType, side: Option<Side>, ready: bool)

  datatype Slot = Slot(sessionId: string, controller: ControllerType, side: Side, ready: bool)

  datatype ScorePoint = ScorePoint(scorer: Side, left: int, right: int, rally: int, tick: int)

  datatype Score = Score(left: int, right: int, sequence: seq<ScorePoint>)

  datatype Snapshot = Snapshot(ball: Ball, leftPaddle: Paddle, rightPaddle: Paddle, score: Score) {
    function PaddleOf(side: Side): Paddle { if side == Left then leftPaddle else rightPaddle }

    function WithPaddle(side: Side, paddle: Paddle): Snapshot {
      if side == Left then this.(leftPaddle := paddle) else this.(rightPaddle := paddle)
    }
  }

  datatype Phase = Lobby | Running | Paused

  datatype Match = Match(
    generation: int, phase: Phase, mode: Option<Mode>, sessions: seq<Session>,
    controllers: seq<Slot>, authority: Option<string>, tick: int, snapshot: Snapshot)

  datatype Input = Input(sessionId: string, side: Side, direction: Direction, amount: int)

  datatype Failure =
    | MissingController(missing: seq<Side>)
    | ControllerNotReady(missing: seq<Side>)
    | InvalidCommand
    | StaleGeneration(expected: int, actual: int)
    | NotSeatedPlayer(requester: string)
    | NotAuthority(requester: string, holder: Option<string>)
    | NotSessionOwner(requester: string, sessionId: string)
    | SessionMutationNotAllowed(requester: string, sessionId: string, phase: Phase)
    | SideAlreadyClaimed(requester: string, owner: string, side: Side)
    | MatchNotInLobby(phase: Phase)
    | MatchNotRunning(phase: Phase)

  datatype Result = Accepted(state: Match) | Rejected(failure: Failure)

  /** A field of an untyped message: left out, of the wrong shape, or usable. */
  datatype Field<T> = Absent | Malformed | Given(value: T)

  datatype Command =
    | GetMatch
    | SyncSession(requester: string, session: Session)
    | RemoveSession(requester: string, sessionId: string)
    | StartMatch(requester: string, expected: int, startMode: Field<Mode>)
    | PauseMatch(requester: string, expected: int)
    | RestartMatch(requester: string, expected: int)
    | Rematch(requester: string, expected: int, rematchMode: Field<Mode>)
    | ReturnToRoom(requester: string, expected: int)
    | ApplyControllerInput(requester: string, expected: int, input: Input)
    | TickMatch(requester: string, expected: int, count: Field<int>)
    | UnknownCommand

  const INITIAL_SCORE := Score(0, 0, [])

  function ResetSnapshot(seed: int): Snapshot {
    Snapshot(InitialBall(seed, None), InitialPaddle(Left), InitialPaddle(Right), INITIAL_SCORE)
  }

  const INITIAL_MATCH := Match(0, Lobby, None, [], [], None, 0, ResetSnapshot(DEFAULT_SEED))

  // ---------------------------------------------------------------- sessions and slots

  function FindSession(sessions: seq<Session>, id: string): (found: Option<Session>)
    ensures found.Some? ==> found.value in sessions && found.value.sessionId == id
    ensures found.None? ==> forall s :: s in sessions ==> s.sessionId != id
  {
    if sessions == [] then None
    else if sessions[0].sessionId == id then Some(sessions[0])
    else FindSession(sessions[1..], id)
  }

  function FirstSeated(sessions: seq<Session>, side: Side): (found: Option<Session>)
    ensures found.Some? ==> found.value in sessions && found.value.side == Some(side)
    ensures found.None? ==> forall s :: s in sessions ==> s.side != Some(side)
  {
    if sessions == [] then None
    else if sessions[0].side == Some(side) then Some(sessions[0])
    else FirstSeated(sessions[1..], side)
  }

  /** The first session other than `id` that holds `side`. */
  function FindRival(sessions: seq<Session>, id: string, side: Side): (found: Option<Session>)
    ensures found.Some? ==> found.value in sessions && found.value.sessionId != id && found.value.side == Some(side)
    ensures found.None? ==> forall s :: s in sessions && s.sessionId != id ==> s.side != Some(side)
  {
    if sessions == [] then None
    else if sessions[0].sessionId != id && sessions[0].side == Some(side) then Some(sessions[0])
    else FindRival(sessions[1..], id, side)
  }

  function Without(sessions: seq<Session>, id: string): (kept: seq<Session>)
    ensures forall s :: s in kept <==> s in sessions && s.sessionId != id
  {
    if sessions == [] then []
    else if sessions[0].sessionId != id then [sessions[0]] + Without(sessions[1..], id)
    else Without(sessions[1..], id)
  }

  function SlotOf(session: Session, side: Side): Slot {
    Slot(session.sessionId, session.controller, side, session.ready)
  }

  function SlotsAt(sessions: seq<Session>, side: Side): seq<Slot> {
    match FirstSeated(sessions, side)
    case None => []
    case Some(s) => [SlotOf(s, side)]
  }

  function Slots(sessions: seq<Session>): seq<Slot> {
    SlotsAt(sessions, Left) + SlotsAt(sessions, Right)
  }

  lemma {:induction false} FirstSeatedAppend(sessions: seq<Session>, s: Session, side: Side)
    ensures FirstSeated(sessions + [s], side) ==
            if FirstSeated(sessions, side).Some? then FirstSeated(sessions, side)
            else if s.side == Some(side) then Some(s) else None
  {
    if sessions == [] {
      assert sessions + [s] == [s];
    } else {
      assert (sessions + [s])[1..] == sessions[1..] + [s];
      FirstSeatedAppend(sessions[1..], s, side);
    }
  }

  lemma FirstSeatedPrefix(sessions: seq<Session>, i: nat, side: Side)
    requires i < |sessions|
    ensures FirstSeated(sessions[..i + 1], side) ==
            if FirstSeated(sessions[..i], side).Some? then FirstSeated(sessions[..i], side)
            else if sessions[i].side == Some(side) then Some(sessions[i]) else None
  {
    assert sessions[..i + 1] == sessions[..i] + [sessions[i]];
    FirstSeatedAppend(sessions[..i], sessions[i], side);
  }

  /** The slot of a side as the source's map holds it: absent until a holder was seen. */
  ghost predicate Holds(slots: map<Side, Slot>, seen: seq<Session>, side: Side) {
    match FirstSeated(seen, side)
    case None => side !in slots
    case Some(s) => side in slots && slots[side] == SlotOf(s, side)
  }

  /** The source fills a map in one pass over the sessions; the first holder of a side wins. */
  method ResolveControllerSlots(sessions: seq<Session>) returns (controllers: seq<Slot>)
    ensures controllers == Slots(sessions)
  {
    var slots: map<Side, Slot> := map[];
    for i := 0 to |sessions|
      invariant Holds(slots, sessions[..i], Left) && Holds(slots, sessions[..i], Right)
    {
      FirstSeatedPrefix(sessions, i, Left);
      FirstSeatedPrefix(sessions, i, Right);
      var session := sessions[i];
      if session.side.None? || session.side.value in slots {
        continue;
      }
      slots := slots[session.side.value := SlotOf(session, session.side.value)];
    }
    assert sessions[..|sessions|] == sessions;
    controllers := [];
    if Left in slots { controllers := controllers + [slots[Left]]; }
    if Right in slots { controllers := controllers + [slots[Right]]; }
  }

  function FindSlot(controllers: seq<Slot>, side: Side): (found: Option<Slot>)
    ensures found.Some? ==> found.value in controllers && found.value.side == side
    ensures found.None? ==> forall c :: c in controllers ==> c.side != side
  {
    if controllers == [] then None
    else if controllers[0].side == side then Some(controllers[0])
    else FindSlot(controllers[1..], side)
  }

  predicate IsSeated(m: Match, id: string) {
    exists s :: s in m.sessions && s.sessionId == id && s.side.Some?
  }

  predicate SlotFilled(m: Match, mode: Mode, side: Side) {
    var slot := FindSlot(m.controllers, side);
    slot.Some? && slot.value.controller == mode.For(side)
  }

  predicate SlotReady(m: Match, side: Side) {
    var slot := FindSlot(m.controllers, side);
    slot.Some? && slot.value.ready
  }

  function SidesWhere(p: Side -> bool): seq<Side> {
    (if p(Left) then [Left] else []) + (if p(Right) then [Right] else [])
  }

  // ---------------------------------------------------------------- lifecycle reducers

  function UpdateAuthority(m: Match): Match {
    if m.phase != Running then m.(authority := None)
    else if
      && m.authority.Some? && FindSession(m.sessions, m.authority.value).Some?
      && m.mode.Some?
      && (forall side: Side :: SlotFilled(m, m.mode.value, side) && SlotReady(m, side))
    then m
    else m.(generation := m.generation + 1, authority := None, phase := Paused)
  }

  function Sync(m: Match, requester: string, session: Session): Result {
    var existing := FindSession(m.sessions, session.sessionId);
    var rival := if session.side.Some? then FindRival(m.sessions, session.sessionId, session.side.value) else None;
    if requester != session.sessionId then
      Rejected(NotSessionOwner(requester, session.sessionId))
    else if m.phase != Lobby
            && (if existing.None? then session.side.Some?
                else existing.value.side != session.side || existing.value.controller != session.controller) then
      Rejected(SessionMutationNotAllowed(requester, session.sessionId, m.phase))
    else if rival.Some? then
      Rejected(SideAlreadyClaimed(requester, rival.value.sessionId, session.side.value))
    else
      var sessions := Without(m.sessions, session.sessionId) + [session];
      Accepted(UpdateAuthority(m.(sessions := sessions, controllers := Slots(sessions))))
  }

  function Remove(m: Match, requester: string, sessionId: string): Result {
    if requester != sessionId then Rejected(NotSessionOwner(requester, sessionId))
    else
      var sessions := Without(m.sessions, sessionId);
      Accepted(UpdateAuthority(m.(sessions := sessions, controllers := Slots(sessions))))
  }

  function ControllerFailure(m: Match, mode: Mode): Option<Failure> {
    var missing := SidesWhere(side => !SlotFilled(m, mode, side));
    var notReady := SidesWhere(side => !SlotReady(m, side));
    if missing != [] then Some(MissingController(missing))
    else if notReady != [] then Some(ControllerNotReady(notReady))
    else None
  }

  function Launch(m: Match, requester: string, mode: Mode): Match {
    m.(generation := m.generation + 1, phase := Running, mode := Some(mode),
       authority := Some(requester), tick := 0,
       snapshot := ResetSnapshot(DEFAULT_SEED + m.generation + 1))
  }

  function Start(m: Match, requester: string, expected: int, mode: Mode): Result {
    if m.generation != expected then Rejected(StaleGeneration(expected, m.generation))
    else if m.phase != Lobby then Rejected(MatchNotInLobby(m.phase))
    else if !IsSeated(m, requester) then Rejected(NotSeatedPlayer(requester))
    else if ControllerFailure(m, mode).Some? then Rejected(ControllerFailure(m, mode).value)
    else Accepted(Launch(m, requester, mode))
  }

  function Restart(m: Match, requester: string, expected: int, requested: Option<Mode>): Result {
    var mode := if requested.Some? then requested.value else if m.mode.Some? then m.mode.value else TWO_HUMANS;
    if m.generation != expected then Rejected(StaleGeneration(expected, m.generation))
    else if !IsSeated(m, requester) then Rejected(NotSeatedPlayer(requester))
    else if ControllerFailure(m, mode).Some? then Rejected(ControllerFailure(m, mode).value)
    else Accepted(Launch(m, requester, mode))
  }

  predicate IsRunning(m: Match) { m.phase == Running && m.mode.Some? }

  function Pause(m: Match, requester: string, expected: int): Result {
    if m.generation != expected then Rejected(StaleGeneration(expected, m.generation))
    else if m.authority != Some(requester) then Rejected(NotAuthority(requester, m.authority))
    else if !IsRunning(m) then Rejected(MatchNotRunning(m.phase))
    else Accepted(m.(generation := m.generation + 1, phase := Paused, authority := None))
  }

  function ReturnToLobby(m: Match, requester: string, expected: int): Result {
    if m.generation != expected then Rejected(StaleGeneration(expected, m.generation))
    else if !IsSeated(m, requester) then Rejected(NotSeatedPlayer(requester))
    else Accepted(m.(generation := m.generation + 1, phase := Lobby, mode := None, authority := None,
                     tick := 0, snapshot := ResetSnapshot(DEFAULT_SEED + m.generation + 1)))
  }

  function ApplyInput(m: Match, requester: string, expected: int, input: Input): Result {
    var owner := FindSession(m.sessions, requester);
    if m.generation != expected then Rejected(StaleGeneration(expected, m.generation))
    else if !IsRunning(m) then Rejected(MatchNotRunning(m.phase))
    else if !IsSeated(m, requester) then Rejected(NotSeatedPlayer(requester))
    else if owner.None? || owner.value.side != Some(input.side) || input.sessionId != requester then
      Rejected(NotSeatedPlayer(requester))
    else
      var moved := MovePaddle(m.snapshot.PaddleOf(input.side), input.direction, input.amount);
      Accepted(m.(snapshot := m.snapshot.WithPaddle(input.side, moved)))
  }

  function ApplyScoreSignal(score: Score, point: ScoredSignal): Score {
    var left := score.left + (if point.scorer == Left then 1 else 0);
    var right := score.right + (if point.scorer == Right then 1 else 0);
    Score(left, right, score.sequence + [ScorePoint(point.scorer, left, right, point.rally, point.tick)])
  }

  function BallContextOf(m: Match): BallContext {
    BallContext(m.snapshot.ball, m.snapshot.leftPaddle.y, m.snapshot.rightPaddle.y, m.tick)
  }

  /** The first scored event, which is what the source's `find` returns. */
  function FindScored(events: seq<BallEvent>): Option<ScoredSignal> {
    if events == [] then None
    else if events[0].Scored? then Some(events[0].point)
    else FindScored(events[1..])
  }

  function TickOnce(m: Match): Match {
    var r := Advance(BallContextOf(m));
    var scored := FindScored(r.events);
    m.(tick := r.context.tick,
       snapshot := m.snapshot.(ball := r.context.ball,
                               score := if scored.Some? then ApplyScoreSignal(m.snapshot.score, scored.value)
                                        else m.snapshot.score))
  }

  function TickTimes(m: Match, n: nat): Match {
    if n == 0 then m else TickOnce(TickTimes(m, n - 1))
  }

  function Tick(m: Match, requester: string, expected: int, count: Field<int>): Result {
    if count.Malformed? || (count.Given? && !(1 <= count.value <= 10)) then Rejected(InvalidCommand)
    else if m.generation != expected then Rejected(StaleGeneration(expected, m.generation))
    else if !IsRunning(m) then Rejected(MatchNotRunning(m.phase))
    else if m.authority != Some(requester) then Rejected(NotAuthority(requester, m.authority))
    else Accepted(TickTimes(m, if count.Given? then count.value else 1))
  }

  /** The tick command in the source's own form, with its loop over `nextMatch`. */
  method TickMatchLoop(m: Match, requester: string, expected: int, count: Field<int>) returns (r: Result)
    ensures r == Tick(m, requester, expected, count)
  {
    if count.Malformed? || (count.Given? && !(1 <= count.value <= 10)) {
      return Rejected(InvalidCommand);
    }
    if m.generation != expected { return Rejected(StaleGeneration(expected, m.generation)); }
    if !IsRunning(m) { return Rejected(MatchNotRunning(m.phase)); }
    if m.authority != Some(requester) { return Rejected(NotAuthority(requester, m.authority)); }
    var times := if count.Given? then count.value else 1;
    var nextMatch := m;
    for index := 0 to times
      invariant nextMatch == TickTimes(m, index)
    {
      var result := AdvanceBall(BallContextOf(nextMatch));
      var scored := FindScored(result.events);
      var score := nextMatch.snapshot.score;
      if scored.Some? {
        score := ApplyScoreSignal(score, scored.value);
      }
      nextMatch := nextMatch.(tick := result.context.tick,
                              snapshot := nextMatch.snapshot.(ball := result.context.ball, score := score));
    }
    r := Accepted(nextMatch);
  }

  // ---------------------------------------------------------------- dispatch

  function Dispatch(m: Match, command: Command): Result {
    match command
    case GetMatch => Accepted(m)
    case SyncSession(requester, session) => Sync(m, requester, session)
    case RemoveSession(requester, id) => Remove(m, requester, id)
    case StartMatch(requester, expected, mode) =>
      if mode.Given? then Start(m, requester, expected, mode.value) else Rejected(InvalidCommand)
    case PauseMatch(requester, expected) => Pause(m, requester, expected)
    case RestartMatch(requester, expected) => Restart(m, requester, expected, None)
    case Rematch(requester, expected, mode) =>
      if mode.Malformed? then Rejected(InvalidCommand)
      else Restart(m, requester, expected, if mode.Given? then Some(mode.value) else None)
    case ReturnToRoom(requester, expected) => ReturnToLobby(m, requester, expected)
    case ApplyControllerInput(requester, expected, input) => ApplyInput(m, requester, expected, input)
    case TickMatch(requester, expected, count) => Tick(m, requester, expected, count)
    case UnknownCommand => Rejected(InvalidCommand)
  }

  /** The coordinator keeps its context when a command is rejected. */
  function Coordinate(m: Match, command: Command): Match {
    match Dispatch(m, command)
    case Accepted(next) => next
    case Rejected(_) => m
  }

  function Run(m: Match, commands: seq<Command>): Match
    decreases |commands|
  {
    if commands == [] then m
    else Coordinate(Run(m, commands[..|commands| - 1]), commands[|commands| - 1])
  }
}
