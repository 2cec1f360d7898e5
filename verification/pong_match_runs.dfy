/**
  What every run of the match coordinator keeps, for any commands in any order:
  seats, authority, phases, ball bounds and score ledger; and what the
  generation fences.
 */
module PongMatchRuns {
  import opened Prelude
  import opened PongBall
  import opened PongReflex
  import opened PongMatch

  // ---------------------------------------------------------------- sessions

  predicate Apart(a: Session, b: Session) {
    a.sessionId != b.sessionId && (a.side.Some? ==> a.side != b.side)
  }

  /** No two sessions share an id, and no two sessions hold one side. */
  ghost predicate PairwiseApart(sessions: seq<Session>) {
    forall i, j :: 0 <= i < j < |sessions| ==> Apart(sessions[i], sessions[j])
  }

  lemma {:induction false} WithoutStaysApart(sessions: seq<Session>, id: string)
    requires PairwiseApart(sessions)
    ensures PairwiseApart(Without(sessions, id))
  {
    if sessions != [] {
      var rest := Without(sessions[1..], id);
      WithoutStaysApart(sessions[1..], id);
      forall j | 0 <= j < |rest| ensures Apart(sessions[0], rest[j]) {
        assert rest[j] in sessions[1..];
        var k :| 0 <= k < |sessions[1..]| && sessions[1..][k] == rest[j];
        assert Apart(sessions[0], sessions[k + 1]);
      }
    }
  }

  lemma AppendStaysApart(sessions: seq<Session>, s: Session)
    requires PairwiseApart(sessions) && forall other :: other in sessions ==> Apart(other, s)
    ensures PairwiseApart(sessions + [s])
  {
  }

  lemma {:induction false} HolderIsFirst(sessions: seq<Session>, s: Session, side: Side)
    requires PairwiseApart(sessions) && s in sessions && s.side == Some(side)
    ensures FirstSeated(sessions, side) == Some(s)
  {
    if sessions[0] != s {
      var k :| 0 <= k < |sessions| && sessions[k] == s;
      assert Apart(sessions[0], sessions[k]);
      HolderIsFirst(sessions[1..], s, side);
    }
  }

  lemma IdsDiffer(sessions: seq<Session>, i: nat, j: nat)
    requires PairwiseApart(sessions) && i < |sessions| && j < |sessions|
    ensures i != j ==> sessions[i].sessionId != sessions[j].sessionId
  {
    if i < j {
      assert Apart(sessions[i], sessions[j]);
    } else if j < i {
      assert Apart(sessions[j], sessions[i]);
    }
  }

  lemma SameIdIsSame(sessions: seq<Session>, a: Session, b: Session)
    requires PairwiseApart(sessions) && a in sessions && b in sessions && a.sessionId == b.sessionId
    ensures a == b
  {
    var i :| 0 <= i < |sessions| && sessions[i] == a;
    var j :| 0 <= j < |sessions| && sessions[j] == b;
    IdsDiffer(sessions, i, j);
  }

  lemma SlotIsHolder(m: Match, side: Side)
    requires m.controllers == Slots(m.sessions)
    ensures FindSlot(m.controllers, side) ==
            match FirstSeated(m.sessions, side) case None => None case Some(s) => Some(SlotOf(s, side))
  {
    var left, right := SlotsAt(m.sessions, Left), SlotsAt(m.sessions, Right);
    assert left == [] ==> left + right == right;
    assert left != [] ==> left + right == [left[0]] + right && (left + right)[1..] == right;
  }

  // ---------------------------------------------------------------- the ledger

  function Tally(points: seq<ScorePoint>, side: Side): nat {
    if points == [] then 0
    else Tally(points[..|points| - 1], side) + (if points[|points| - 1].scorer == side then 1 else 0)
  }

  /** Each entry carries the totals of the ledger up to and including itself. */
  ghost predicate RunningTotals(points: seq<ScorePoint>) {
    forall i :: 0 <= i < |points| ==>
      points[i].left == Tally(points[..i + 1], Left) && points[i].right == Tally(points[..i + 1], Right)
  }

  ghost predicate TicksClimb(points: seq<ScorePoint>, tick: int) {
    && (forall i, j :: 0 <= i < j < |points| ==> points[i].tick < points[j].tick)
    && (forall i :: 0 <= i < |points| ==> 0 < points[i].tick <= tick)
  }

  /** The score is the ledger's total, and the ledger's ticks climb. */
  ghost predicate Ledger(score: Score, tick: int) {
    var s := score.sequence;
    && score.left == Tally(s, Left) && score.right == Tally(s, Right)
    && RunningTotals(s) && TicksClimb(s, tick)
  }

  lemma {:induction false} TallyIsTotal(points: seq<ScorePoint>)
    ensures Tally(points, Left) + Tally(points, Right) == |points|
  {
    if points != [] {
      TallyIsTotal(points[..|points| - 1]);
    }
  }

  lemma ClimbOn(points: seq<ScorePoint>, tick: int, p: ScorePoint)
    requires TicksClimb(points, tick) && tick >= 0 && p.tick == tick + 1
    ensures TicksClimb(points + [p], tick + 1)
  {
  }

  lemma TotalsGrow(points: seq<ScorePoint>, p: ScorePoint)
    requires RunningTotals(points)
    requires p.left == Tally(points + [p], Left) && p.right == Tally(points + [p], Right)
    ensures RunningTotals(points + [p])
  {
    var longer := points + [p];
    forall i | 0 <= i < |longer|
      ensures longer[i].left == Tally(longer[..i + 1], Left) && longer[i].right == Tally(longer[..i + 1], Right)
    {
      if i < |points| {
        assert longer[..i + 1] == points[..i + 1];
      } else {
        assert longer[..i + 1] == longer;
      }
    }
  }

  lemma TallyGrows(points: seq<ScorePoint>, p: ScorePoint, side: Side)
    ensures Tally(points + [p], side) == Tally(points, side) + if p.scorer == side then 1 else 0
  {
    assert (points + [p])[..|points|] == points;
  }

  lemma TotalsOfSignal(score: Score, point: ScoredSignal)
    requires RunningTotals(score.sequence)
    requires score.left == Tally(score.sequence, Left) && score.right == Tally(score.sequence, Right)
    ensures var next := ApplyScoreSignal(score, point);
            && RunningTotals(next.sequence)
            && next.left == Tally(next.sequence, Left) && next.right == Tally(next.sequence, Right)
  {
    var next := ApplyScoreSignal(score, point);
    var p := next.sequence[|score.sequence|];
    TallyGrows(score.sequence, p, Left);
    TallyGrows(score.sequence, p, Right);
    TotalsGrow(score.sequence, p);
  }

  lemma SignalKeepsLedger(score: Score, tick: int, point: ScoredSignal)
    requires Ledger(score, tick) && tick >= 0 && point.tick == tick + 1
    ensures Ledger(ApplyScoreSignal(score, point), tick + 1)
    ensures var next := ApplyScoreSignal(score, point);
            && next.left + next.right == |next.sequence| == |score.sequence| + 1
            && (next.left == score.left <==> point.scorer == Right)
  {
    TotalsOfSignal(score, point);
    ClimbOn(score.sequence, tick, ApplyScoreSignal(score, point).sequence[|score.sequence|]);
    TallyIsTotal(ApplyScoreSignal(score, point).sequence);
  }

  // ---------------------------------------------------------------- the invariant

  predicate PaddleInvariant(p: Paddle, side: Side) {
    p.side == side && p.height == PADDLE_HEIGHT && OnTrack(p.y)
  }

  ghost predicate PlayInvariant(m: Match) {
    && Playable(BallContextOf(m))
    && PaddleInvariant(m.snapshot.leftPaddle, Left) && PaddleInvariant(m.snapshot.rightPaddle, Right)
    && Ledger(m.snapshot.score, m.tick)
  }

  ghost predicate SeatInvariant(m: Match) {
    && PairwiseApart(m.sessions)
    && m.controllers == Slots(m.sessions)
    && m.generation >= 0
    && (m.authority.Some? <==> m.phase == Running)
    && (m.mode.None? <==> m.phase == Lobby)
    && (m.phase == Running ==>
          && IsSeated(m, m.authority.value)
          && forall side: Side :: SlotFilled(m, m.mode.value, side) && SlotReady(m, side))
  }

  ghost predicate MatchInvariant(m: Match) {
    SeatInvariant(m) && PlayInvariant(m)
  }

  /**
    The generation counts every change of phase, mode or authority, one at a time; while it
    stands still in a running match the controller slots and the authority stand still too,
    and the tick never goes back.
   */
  predicate Fenced(m: Match, next: Match) {
    && m.generation <= next.generation <= m.generation + 1
    && (next.generation == m.generation ==>
          && next.phase == m.phase && next.mode == m.mode && next.authority == m.authority
          && (m.phase == Running ==> next.controllers == m.controllers)
          && next.tick >= m.tick)
  }

  lemma ServeIsPlayable(seed: int)
    requires seed >= 0
    ensures Playable(BallContext(InitialBall(seed, None), CENTERED_Y, CENTERED_Y, 0))
  {
    ServeInBounds(seed, None);
  }

  lemma InitialMatchInvariant()
    ensures MatchInvariant(INITIAL_MATCH)
  {
    ServeIsPlayable(DEFAULT_SEED);
  }

  lemma FailureOrFilled(m: Match, mode: Mode, side: Side)
    requires ControllerFailure(m, mode).None?
    ensures SlotFilled(m, mode, side) && SlotReady(m, side)
  {
    assert side == Left || side == Right;
    assert !SlotFilled(m, mode, side) ==> side in SidesWhere(s => !SlotFilled(m, mode, s));
    assert !SlotReady(m, side) ==> side in SidesWhere(s => !SlotReady(m, s));
  }

  lemma LaunchKeepsSeats(m: Match, requester: string, mode: Mode)
    requires SeatInvariant(m) && IsSeated(m, requester) && ControllerFailure(m, mode).None?
    ensures SeatInvariant(Launch(m, requester, mode)) && Fenced(m, Launch(m, requester, mode))
  {
    var next := Launch(m, requester, mode);
    forall side: Side ensures SlotFilled(next, mode, side) && SlotReady(next, side) {
      FailureOrFilled(m, mode, side);
    }
  }

  lemma LaunchKeeps(m: Match, requester: string, mode: Mode)
    requires MatchInvariant(m) && IsSeated(m, requester) && ControllerFailure(m, mode).None?
    ensures MatchInvariant(Launch(m, requester, mode)) && Fenced(m, Launch(m, requester, mode))
  {
    LaunchKeepsSeats(m, requester, mode);
    ServeIsPlayable(DEFAULT_SEED + m.generation + 1);
  }

  lemma SyncedSessionsApart(m: Match, session: Session)
    requires SeatInvariant(m) && Sync(m, session.sessionId, session).Accepted?
    ensures PairwiseApart(Without(m.sessions, session.sessionId) + [session])
  {
    var kept := Without(m.sessions, session.sessionId);
    WithoutStaysApart(m.sessions, session.sessionId);
    AppendStaysApart(kept, session);
  }

  /** In a running match an accepted sync that does not pause it leaves every slot as it was. */
  lemma SyncKeepsSlots(m: Match, session: Session)
    requires SeatInvariant(m) && m.phase == Running
    requires Sync(m, session.sessionId, session).Accepted?
    requires Sync(m, session.sessionId, session).state.phase == Running
    ensures Sync(m, session.sessionId, session).state.controllers == m.controllers
  {
    var next := Sync(m, session.sessionId, session).state;
    var existing := FindSession(m.sessions, session.sessionId);
    SyncedSessionsApart(m, session);
    forall side: Side ensures SlotsAt(next.sessions, side) == SlotsAt(m.sessions, side) {
      SlotIsHolder(m, side);
      SlotIsHolder(next, side);
      assert SlotFilled(m, m.mode.value, side) && SlotReady(m, side);
      assert SlotFilled(next, m.mode.value, side) && SlotReady(next, side);
      var holder := FirstSeated(m.sessions, side).value;
      if holder.sessionId == session.sessionId {
        SameIdIsSame(m.sessions, holder, existing.value);
        assert session in next.sessions;
        HolderIsFirst(next.sessions, session, side);
      } else {
        assert holder in next.sessions;
        HolderIsFirst(next.sessions, holder, side);
      }
    }
  }

  lemma SyncKeeps(m: Match, session: Session)
    requires MatchInvariant(m) && Sync(m, session.sessionId, session).Accepted?
    ensures var next := Sync(m, session.sessionId, session).state; MatchInvariant(next) && Fenced(m, next)
  {
    var next := Sync(m, session.sessionId, session).state;
    SyncedSessionsApart(m, session);
    if next.phase == Running {
      SyncKeepsSlots(m, session);
      var id := m.authority.value;
      var seat :| seat in m.sessions && seat.sessionId == id && seat.side.Some?;
      if id == session.sessionId {
        SameIdIsSame(m.sessions, seat, FindSession(m.sessions, id).value);
        assert session in next.sessions;
      } else {
        assert seat in next.sessions;
      }
    }
  }

  lemma RemoveKeeps(m: Match, id: string)
    requires MatchInvariant(m)
    ensures var next := Remove(m, id, id).state; MatchInvariant(next) && Fenced(m, next)
  {
    var next := Remove(m, id, id).state;
    WithoutStaysApart(m.sessions, id);
    if next.phase == Running {
      forall side: Side ensures SlotsAt(next.sessions, side) == SlotsAt(m.sessions, side) {
        SlotIsHolder(m, side);
        SlotIsHolder(next, side);
        assert SlotFilled(m, m.mode.value, side) && SlotFilled(next, m.mode.value, side);
        HolderIsFirst(m.sessions, FirstSeated(next.sessions, side).value, side);
      }
      var seat :| seat in m.sessions && seat.sessionId == m.authority.value && seat.side.Some?;
      assert seat in next.sessions;
    }
  }

  lemma SeatFrame(m: Match, next: Match)
    requires SeatInvariant(m) && next == m.(tick := next.tick, snapshot := next.snapshot)
    ensures SeatInvariant(next)
  {
    if m.phase == Running {
      forall side: Side ensures SlotFilled(next, next.mode.value, side) && SlotReady(next, side) {
        assert SlotFilled(m, m.mode.value, side) && SlotReady(m, side);
      }
    }
  }

  lemma FindScoredIsHead(c: BallContext)
    ensures var events := Advance(c).events;
            && FindScored(events) == (if events[0].Scored? then Some(events[0].point) else None)
            && (events[0].Scored? ==> events[0].point.tick == c.tick + 1)
  {
    var events := Advance(c).events;
    assert events[0].BallMoved? ==> FindScored(events[1..]) == None;
  }

  lemma TickOnceKeeps(m: Match)
    requires MatchInvariant(m)
    ensures MatchInvariant(TickOnce(m)) && Fenced(m, TickOnce(m)) && TickOnce(m).tick == m.tick + 1
    ensures TickOnce(m) == m.(tick := TickOnce(m).tick, snapshot := TickOnce(m).snapshot)
    ensures TickOnce(m).snapshot.leftPaddle == m.snapshot.leftPaddle
    ensures TickOnce(m).snapshot.rightPaddle == m.snapshot.rightPaddle
  {
    var c := BallContextOf(m);
    AdvanceKeepsPlayable(c);
    FindScoredIsHead(c);
    var scored := FindScored(Advance(c).events);
    if scored.Some? {
      SignalKeepsLedger(m.snapshot.score, m.tick, scored.value);
    }
    SeatFrame(m, TickOnce(m));
  }

  lemma {:induction false} TickTimesKeeps(m: Match, n: nat)
    requires MatchInvariant(m)
    ensures MatchInvariant(TickTimes(m, n)) && Fenced(m, TickTimes(m, n)) && TickTimes(m, n).tick == m.tick + n
    ensures TickTimes(m, n) == m.(tick := TickTimes(m, n).tick, snapshot := TickTimes(m, n).snapshot)
    ensures TickTimes(m, n).snapshot.leftPaddle == m.snapshot.leftPaddle
    ensures TickTimes(m, n).snapshot.rightPaddle == m.snapshot.rightPaddle
  {
    if n > 0 {
      TickTimesKeeps(m, n - 1);
      TickOnceKeeps(TickTimes(m, n - 1));
    }
  }

  lemma InputKeeps(m: Match, requester: string, expected: int, input: Input)
    requires MatchInvariant(m) && ApplyInput(m, requester, expected, input).Accepted?
    ensures var next := ApplyInput(m, requester, expected, input).state; MatchInvariant(next) && Fenced(m, next)
  {
    SeatFrame(m, ApplyInput(m, requester, expected, input).state);
  }

  ghost predicate Kept(m: Match, next: Match) { MatchInvariant(next) && Fenced(m, next) }

  lemma PauseKeeps(m: Match, requester: string, expected: int)
    requires MatchInvariant(m) && Pause(m, requester, expected).Accepted?
    ensures Kept(m, Pause(m, requester, expected).state)
  {
  }

  lemma ReturnKeeps(m: Match, requester: string, expected: int)
    requires MatchInvariant(m) && ReturnToLobby(m, requester, expected).Accepted?
    ensures Kept(m, ReturnToLobby(m, requester, expected).state)
  {
    ServeIsPlayable(DEFAULT_SEED + m.generation + 1);
  }

  lemma RestartKeeps(m: Match, requester: string, expected: int, requested: Option<Mode>)
    requires MatchInvariant(m) && Restart(m, requester, expected, requested).Accepted?
    ensures Kept(m, Restart(m, requester, expected, requested).state)
  {
    LaunchKeeps(m, requester,
                if requested.Some? then requested.value else if m.mode.Some? then m.mode.value else TWO_HUMANS);
  }

  lemma StartKeeps(m: Match, requester: string, expected: int, mode: Mode)
    requires MatchInvariant(m) && Start(m, requester, expected, mode).Accepted?
    ensures Kept(m, Start(m, requester, expected, mode).state)
  {
    LaunchKeeps(m, requester, mode);
  }

  lemma TickKeeps(m: Match, requester: string, expected: int, count: Field<int>)
    requires MatchInvariant(m) && Tick(m, requester, expected, count).Accepted?
    ensures Kept(m, Tick(m, requester, expected, count).state)
  {
    TickTimesKeeps(m, if count.Given? then count.value else 1);
  }

  lemma AcceptedKeeps(m: Match, command: Command)
    requires MatchInvariant(m) && Dispatch(m, command).Accepted? && !command.GetMatch?
    ensures Kept(m, Dispatch(m, command).state)
  {
    match command
    case SyncSession(_, session) => SyncKeeps(m, session);
    case RemoveSession(_, id) => RemoveKeeps(m, id);
    case StartMatch(requester, expected, mode) => StartKeeps(m, requester, expected, mode.value);
    case PauseMatch(requester, expected) => PauseKeeps(m, requester, expected);
    case RestartMatch(requester, expected) => RestartKeeps(m, requester, expected, None);
    case Rematch(requester, expected, mode) =>
      RestartKeeps(m, requester, expected, if mode.Given? then Some(mode.value) else None);
    case ReturnToRoom(requester, expected) => ReturnKeeps(m, requester, expected);
    case ApplyControllerInput(requester, expected, input) => InputKeeps(m, requester, expected, input);
    case TickMatch(requester, expected, count) => TickKeeps(m, requester, expected, count);
  }

  /** One command, whatever it is and whoever sends it, keeps the invariant and is fenced. */
  lemma CommandKeeps(m: Match, command: Command)
    requires MatchInvariant(m)
    ensures MatchInvariant(Coordinate(m, command)) && Fenced(m, Coordinate(m, command))
  {
    if Dispatch(m, command).Accepted? && !command.GetMatch? {
      AcceptedKeeps(m, command);
    }
  }

  /** Every reachable match satisfies the invariant. */
  lemma {:induction false} MatchInvariantForever(m: Match, commands: seq<Command>)
    requires MatchInvariant(m)
    ensures MatchInvariant(Run(m, commands))
    decreases |commands|
  {
    if commands != [] {
      MatchInvariantForever(m, commands[..|commands| - 1]);
      CommandKeeps(Run(m, commands[..|commands| - 1]), commands[|commands| - 1]);
    }
  }

  /**
    The generation is a fencing token: two moments of one run that carry the same generation
    agree on phase, mode and authority, and while running on the whole roster.
   */
  lemma {:induction false} GenerationFences(m: Match, commands: seq<Command>, i: nat)
    requires MatchInvariant(m) && i <= |commands|
    ensures var early, late := Run(m, commands[..i]), Run(m, commands);
            && early.generation <= late.generation
            && (early.generation == late.generation ==> Fenced(early, late))
    decreases |commands|
  {
    if i == |commands| {
      assert commands[..i] == commands;
    } else {
      var shorter := commands[..|commands| - 1];
      assert shorter[..i] == commands[..i];
      GenerationFences(m, shorter, i);
      MatchInvariantForever(m, shorter);
      CommandKeeps(Run(m, shorter), commands[|commands| - 1]);
    }
  }

  /**
    Within one generation the playfield changes in two ways only: the holder of a slot moves
    its own paddle, or the authority advances the ball and the score.
   */
  lemma OnlyOwnersMove(m: Match, command: Command)
    requires MatchInvariant(m)
    requires Coordinate(m, command).generation == m.generation
    requires Coordinate(m, command).snapshot != m.snapshot
    ensures m.phase == Running
    ensures var before, after := m.snapshot, Coordinate(m, command).snapshot;
            || (&& command.ApplyControllerInput?
                && FindSlot(m.controllers, command.input.side).Some?
                && FindSlot(m.controllers, command.input.side).value.sessionId == command.requester
                && after == before.WithPaddle(command.input.side, after.PaddleOf(command.input.side)))
            || (&& command.TickMatch? && m.authority == Some(command.requester)
                && after == before.(ball := after.ball, score := after.score))
  {
    match command
    case GetMatch =>
    case SyncSession(_, _) =>
    case RemoveSession(_, _) =>
    case StartMatch(_, _, _) =>
    case PauseMatch(_, _) =>
    case RestartMatch(_, _) =>
    case Rematch(_, _, _) =>
    case ReturnToRoom(_, _) =>
    case ApplyControllerInput(requester, _, input) =>
      SlotIsHolder(m, input.side);
      HolderIsFirst(m.sessions, FindSession(m.sessions, requester).value, input.side);
    case TickMatch(_, _, count) =>
      TickTimesKeeps(m, if count.Given? then count.value else 1);
    case UnknownCommand =>
  }
}
