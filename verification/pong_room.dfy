/**
  The pre-match room: an optimistic-concurrency reducer over members, seats and
  readiness, which hands one immutable roster to the match.
 */
module PongRoom {
  import opened Prelude
  import opened PongBall
  import opened PongMatch
  import opened Text

  datatype RoomPhase = Empty | Open | Starting

  datatype Member = Member(sessionId: string, connected: bool, side: Option<Side>, controller: ControllerType,
                           ready: bool)

  datatype Reason =
    | AlreadyCreated | InvalidRoomCommand | MatchStarted | NotCreated | NotHost
    | NotMember | PlayerNotReady | SeatTaken | StaleRevision

  datatype Rejection = Rejection(reason: Reason, requester: string, expected: Option<int>,
                                 actual: Option<int>, side: Option<Side>)

  datatype Room = Room(roomId: string, code: Option<string>, revision: int, phase: RoomPhase,
                       host: Option<string>, members: seq<Member>, lastRejection: Option<Rejection>)

  datatype Roster = Roster(roomId: string, authority: string, roomRevision: int, controllers: seq<Slot>)

  datatype Action =
    | CreateRoom(code: string)
    | JoinRoom
    | LeaveRoom
    | ClaimSeat(side: Side, claimController: Option<ControllerType>)
    | ReleaseSeat
    | SetController(controller: ControllerType)
    | SetReady(ready: bool)
    | BeginMatch

  datatype RoomCommand =
    | GetRoom
    | Revisioned(requester: string, expected: int, action: Action)

  datatype RoomResult = Ok(room: Room, roster: Option<Roster>) | Refused(rejection: Rejection)

  datatype RoomEvent =
    | RoomChanged(room: Room)
    | CommandRejected(rejection: Rejection)
    | MatchRosterReady(roster: Roster)

  datatype Transition = Transition(state: Room, result: RoomResult, events: seq<RoomEvent>)

  function InitialRoom(roomId: string): Room {
    Room(roomId, None, 0, Empty, None, [], None)
  }

  function Refuse(room: Room, rejection: Rejection): Transition {
    Transition(room.(lastRejection := Some(rejection)), Refused(rejection), [CommandRejected(rejection)])
  }

  function Plain(reason: Reason, requester: string): Rejection {
    Rejection(reason, requester, None, None, None)
  }

  /** `changed` is the room with the accepted changes; the revision and the rejection are the reducer's. */
  function Accept(room: Room, changed: Room, roster: Option<Roster>): Transition {
    var next := changed.(revision := room.revision + 1, lastRejection := None);
    Transition(next, Ok(next, roster),
               [RoomChanged(next)] + (if roster.Some? then [MatchRosterReady(roster.value)] else []))
  }

  function MemberFor(members: seq<Member>, id: string): (found: Option<Member>)
    ensures found.Some? ==> found.value in members && found.value.sessionId == id
    ensures found.None? ==> forall m :: m in members ==> m.sessionId != id
  {
    if members == [] then None
    else if members[0].sessionId == id then Some(members[0])
    else MemberFor(members[1..], id)
  }

  function ReplaceMember(members: seq<Member>, id: string, update: Member -> Member): (replaced: seq<Member>)
    ensures |replaced| == |members|
    ensures forall i :: 0 <= i < |members| ==>
              replaced[i] == if members[i].sessionId == id then update(members[i]) else members[i]
  {
    if members == [] then []
    else [if members[0].sessionId == id then update(members[0]) else members[0]]
         + ReplaceMember(members[1..], id, update)
  }

  function HolderOf(members: seq<Member>, side: Side): (found: Option<Member>)
    ensures found.Some? ==> found.value in members && found.value.side == Some(side)
    ensures found.None? ==> forall m :: m in members ==> m.side != Some(side)
  {
    if members == [] then None
    else if members[0].side == Some(side) then Some(members[0])
    else HolderOf(members[1..], side)
  }

  predicate TakenByOther(members: seq<Member>, id: string, side: Side) {
    exists m :: m in members && m.side == Some(side) && m.sessionId != id
  }

  function SeatSlot(members: seq<Member>, side: Side): seq<Slot> {
    match HolderOf(members, side)
    case None => []
    case Some(m) => [Slot(m.sessionId, m.controller, side, m.ready)]
  }

  function ControllerSlots(members: seq<Member>): seq<Slot> {
    SeatSlot(members, Left) + SeatSlot(members, Right)
  }

  function NormalCode(code: string): string { UpperCase(TrimEnd(TrimStart(code))) }

  predicate StartRefused(room: Room) {
    || |ControllerSlots(room.members)| != 2
    || (exists c :: c in ControllerSlots(room.members) && !c.ready)
    || (exists m :: m in room.members && m.side.Some? && !m.connected)
  }

  function Rejoined(m: Member): Member { m.(connected := true, ready := false) }

  function Departed(m: Member): Member { m.(connected := false, ready := false) }

  function Unseated(m: Member): Member { m.(side := None, ready := false) }

  function Seated(side: Side, controller: Option<ControllerType>): Member -> Member {
    (m: Member) => m.(side := Some(side), ready := false,
                      controller := if controller.Some? then controller.value else m.controller)
  }

  function Controlled(controller: ControllerType): Member -> Member {
    (m: Member) => m.(controller := controller, ready := false)
  }

  function Readied(ready: bool): Member -> Member {
    (m: Member) => m.(ready := m.connected && m.side.Some? && ready)
  }

  function Change(room: Room, id: string, update: Member -> Member): Transition {
    Accept(room, room.(members := ReplaceMember(room.members, id, update)), None)
  }

  function ByMember(room: Room, id: string, action: Action): Transition
    requires !action.CreateRoom? && !action.JoinRoom?
  {
    match action
    case LeaveRoom => Change(room, id, Departed)
    case ClaimSeat(side, controller) =>
      if TakenByOther(room.members, id, side) then
        Refuse(room, Rejection(SeatTaken, id, None, None, Some(side)))
      else Change(room, id, Seated(side, controller))
    case ReleaseSeat => Change(room, id, Unseated)
    case SetController(controller) => Change(room, id, Controlled(controller))
    case SetReady(ready) =>
      var member := MemberFor(room.members, id);
      if (member.None? || member.value.side.None?) && ready then Refuse(room, Plain(PlayerNotReady, id))
      else Change(room, id, Readied(ready))
    case BeginMatch =>
      if room.host != Some(id) then Refuse(room, Plain(NotHost, id))
      else if StartRefused(room) then Refuse(room, Plain(PlayerNotReady, id))
      else
        Accept(room, room.(phase := Starting),
               Some(Roster(room.roomId, id, room.revision + 1, ControllerSlots(room.members))))
  }

  function Reduce(room: Room, command: RoomCommand): Transition {
    match command
    case GetRoom => Transition(room, Ok(room, None), [])
    case Revisioned(id, expected, action) =>
      var newcomer := Member(id, true, None, Human, false);
      if expected != room.revision then
        Refuse(room, Rejection(StaleRevision, id, Some(expected), Some(room.revision), None))
      else if action.CreateRoom? then
        if room.phase != Empty then Refuse(room, Plain(AlreadyCreated, id))
        else if NormalCode(action.code) == "" then Refuse(room, Plain(InvalidRoomCommand, id))
        else Accept(room, room.(code := Some(NormalCode(action.code)), phase := Open,
                                host := Some(id), members := [newcomer]), None)
      else if room.phase == Empty then Refuse(room, Plain(NotCreated, id))
      else if room.phase == Starting then Refuse(room, Plain(MatchStarted, id))
      else if action.JoinRoom? then
        if MemberFor(room.members, id).Some? then Change(room, id, Rejoined)
        else Accept(room, room.(members := room.members + [newcomer]), None)
      else if MemberFor(room.members, id).None? || !MemberFor(room.members, id).value.connected then
        Refuse(room, Plain(NotMember, id))
      else ByMember(room, id, action)
  }

  // ---------------------------------------------------------------- the invariant

  predicate Distinct(a: Member, b: Member) {
    a.sessionId != b.sessionId && (a.side.Some? ==> a.side != b.side)
  }

  ghost predicate PairwiseDistinct(members: seq<Member>) {
    forall i, j :: 0 <= i < j < |members| ==> Distinct(members[i], members[j])
  }

  predicate ReadyMeansPresent(m: Member) { m.ready ==> m.connected && m.side.Some? }

  ghost predicate RoomInvariant(room: Room) {
    && PairwiseDistinct(room.members)
    && (forall m :: m in room.members ==> ReadyMeansPresent(m))
    && (room.phase == Empty <==> room.members == [])
    && (room.phase == Empty <==> room.host.None?) && (room.phase == Empty <==> room.code.None?)
    && (room.host.Some? ==> MemberFor(room.members, room.host.value).Some?)
    && (room.code.Some? ==> room.code.value != "")
    && room.revision >= 0
    && (room.phase == Starting ==> !StartRefused(room))
  }

  lemma {:induction false} MemberAt(members: seq<Member>, i: nat)
    requires PairwiseDistinct(members) && i < |members|
    ensures MemberFor(members, members[i].sessionId) == Some(members[i])
  {
    if i > 0 {
      assert Distinct(members[0], members[i]);
      MemberAt(members[1..], i - 1);
    }
  }

  lemma {:induction false} HolderAt(members: seq<Member>, i: nat, side: Side)
    requires PairwiseDistinct(members) && i < |members| && members[i].side == Some(side)
    ensures HolderOf(members, side) == Some(members[i])
  {
    if i > 0 {
      assert Distinct(members[0], members[i]);
      HolderAt(members[1..], i - 1, side);
    }
  }

  predicate Harmless(members: seq<Member>, id: string, changed: Member) {
    && changed.sessionId == id && ReadyMeansPresent(changed)
    && (changed.side.Some? ==> !TakenByOther(members, id, changed.side.value))
  }

  lemma HarmlessStaysApart(members: seq<Member>, id: string, changed: Member, other: Member)
    requires Harmless(members, id, changed) && other in members && other.sessionId != id
    ensures Distinct(changed, other) && Distinct(other, changed)
  {
  }

  /** An update that keeps the id and takes no seat of another member keeps members distinct. */
  lemma ReplaceStaysDistinct(members: seq<Member>, id: string, update: Member -> Member)
    requires PairwiseDistinct(members)
    requires forall m :: m in members && m.sessionId == id ==> Harmless(members, id, update(m))
    ensures PairwiseDistinct(ReplaceMember(members, id, update))
  {
    var replaced := ReplaceMember(members, id, update);
    forall i, j | 0 <= i < j < |members| ensures Distinct(replaced[i], replaced[j]) {
      var a, b := members[i], members[j];
      assert Distinct(a, b) && a in members && b in members;
      if a.sessionId == id {
        HarmlessStaysApart(members, id, replaced[i], b);
      } else if b.sessionId == id {
        HarmlessStaysApart(members, id, replaced[j], a);
      }
    }
  }

  lemma ReplaceStaysReady(members: seq<Member>, id: string, update: Member -> Member)
    requires forall m :: m in members ==> ReadyMeansPresent(m)
    requires forall m :: m in members && m.sessionId == id ==> ReadyMeansPresent(update(m))
    ensures forall m :: m in ReplaceMember(members, id, update) ==> ReadyMeansPresent(m)
  {
    var replaced := ReplaceMember(members, id, update);
    forall m | m in replaced ensures ReadyMeansPresent(m) {
      var i :| 0 <= i < |replaced| && replaced[i] == m;
      assert members[i] in members;
    }
  }

  lemma ReplaceStaysMember(members: seq<Member>, id: string, update: Member -> Member, other: string)
    requires forall m :: m in members && m.sessionId == id ==> update(m).sessionId == id
    requires MemberFor(members, other).Some?
    ensures MemberFor(ReplaceMember(members, id, update), other).Some?
  {
    var replaced := ReplaceMember(members, id, update);
    var i :| 0 <= i < |members| && members[i] == MemberFor(members, other).value;
    assert members[i] in members && replaced[i] in replaced;
  }

  lemma OwnSeatIsFree(members: seq<Member>, m: Member)
    requires PairwiseDistinct(members) && m in members && m.side.Some?
    ensures !TakenByOther(members, m.sessionId, m.side.value)
  {
    var i :| 0 <= i < |members| && members[i] == m;
    forall j | 0 <= j < |members| && members[j].side == m.side ensures members[j] == m {
      HolderAt(members, i, m.side.value);
      HolderAt(members, j, m.side.value);
    }
  }

  lemma ReplaceInRoom(room: Room, id: string, update: Member -> Member)
    requires RoomInvariant(room) && room.phase == Open
    requires forall m :: m in room.members && m.sessionId == id ==>
               && update(m).sessionId == id && ReadyMeansPresent(update(m))
               && (update(m).side == m.side || update(m).side.None?
                   || !TakenByOther(room.members, id, update(m).side.value))
    ensures RoomInvariant(Change(room, id, update).state)
  {
    forall m | m in room.members && m.sessionId == id ensures Harmless(room.members, id, update(m)) {
      if m.side.Some? {
        OwnSeatIsFree(room.members, m);
      }
    }
    ReplaceStaysDistinct(room.members, id, update);
    ReplaceStaysReady(room.members, id, update);
    ReplaceStaysMember(room.members, id, update, room.host.value);
  }

  lemma JoinKeeps(room: Room, id: string)
    requires RoomInvariant(room) && room.phase == Open && MemberFor(room.members, id).None?
    ensures var joined := Accept(room, room.(members := room.members + [Member(id, true, None, Human, false)]),
                                 None).state;
            RoomInvariant(joined)
  {
    var newcomer := Member(id, true, None, Human, false);
    var members := room.members + [newcomer];
    forall i, j | 0 <= i < j < |members| ensures Distinct(members[i], members[j]) {
      if j < |room.members| {
        assert Distinct(room.members[i], room.members[j]);
      } else {
        assert room.members[i] in room.members;
      }
    }
    assert MemberFor(room.members, room.host.value).value in members;
  }

  lemma SeatChangeKeeps(room: Room, id: string, action: Action)
    requires RoomInvariant(room) && room.phase == Open && (action.ClaimSeat? || action.ReleaseSeat?)
    ensures RoomInvariant(ByMember(room, id, action).state)
  {
    if action.ReleaseSeat? {
      ReplaceInRoom(room, id, Unseated);
    } else if !TakenByOther(room.members, id, action.side) {
      ReplaceInRoom(room, id, Seated(action.side, action.claimController));
    }
  }

  lemma ByMemberKeeps(room: Room, id: string, action: Action)
    requires RoomInvariant(room) && room.phase == Open && !action.CreateRoom? && !action.JoinRoom?
    ensures RoomInvariant(ByMember(room, id, action).state)
  {
    match action
    case LeaveRoom => ReplaceInRoom(room, id, Departed);
    case ClaimSeat(_, _) => SeatChangeKeeps(room, id, action);
    case ReleaseSeat => SeatChangeKeeps(room, id, action);
    case SetController(controller) => ReplaceInRoom(room, id, Controlled(controller));
    case SetReady(ready) => ReplaceInRoom(room, id, Readied(ready));
    case BeginMatch =>
  }

  lemma EntryKeeps(room: Room, id: string, action: Action)
    requires RoomInvariant(room) && (action.CreateRoom? || action.JoinRoom?)
    ensures RoomInvariant(Reduce(room, Revisioned(id, room.revision, action)).state)
  {
    if action.JoinRoom? && room.phase == Open {
      if MemberFor(room.members, id).Some? {
        ReplaceInRoom(room, id, Rejoined);
      } else {
        JoinKeeps(room, id);
      }
    }
  }

  /** Every command, accepted or refused, keeps the room invariant. */
  lemma ReduceKeepsInvariant(room: Room, command: RoomCommand)
    requires RoomInvariant(room)
    ensures RoomInvariant(Reduce(room, command).state)
  {
    if command.Revisioned? && command.expected == room.revision {
      if command.action.CreateRoom? || command.action.JoinRoom? {
        EntryKeeps(room, command.requester, command.action);
      } else if room.phase == Open {
        ByMemberKeeps(room, command.requester, command.action);
      }
    }
  }

  // ---------------------------------------------------------------- runs

  function RunRoom(room: Room, commands: seq<RoomCommand>): Room
    decreases |commands|
  {
    if commands == [] then room
    else Reduce(RunRoom(room, commands[..|commands| - 1]), commands[|commands| - 1]).state
  }

  function RostersIn(events: seq<RoomEvent>): seq<Roster> {
    if events == [] then []
    else (if events[0].MatchRosterReady? then [events[0].roster] else []) + RostersIn(events[1..])
  }

  /** Every roster a run publishes, in order. */
  function Rosters(room: Room, commands: seq<RoomCommand>): seq<Roster>
    decreases |commands|
  {
    if commands == [] then []
    else
      var k := |commands| - 1;
      Rosters(room, commands[..k]) + RostersIn(Reduce(RunRoom(room, commands[..k]), commands[k]).events)
  }

  function AcceptedChanges(room: Room, commands: seq<RoomCommand>): nat
    decreases |commands|
  {
    if commands == [] then 0
    else
      var k := |commands| - 1;
      AcceptedChanges(room, commands[..k])
      + (if commands[k].Revisioned? && Reduce(RunRoom(room, commands[..k]), commands[k]).result.Ok? then 1 else 0)
  }

  lemma OneStep(room: Room, command: RoomCommand)
    ensures var t := Reduce(room, command);
            && (t.result.Ok? && command.Revisioned? ==>
                  command.expected == room.revision && t.state.revision == room.revision + 1)
            && (t.result.Refused? || command.GetRoom? ==>
                  t.state == room.(lastRejection := t.state.lastRejection))
            && (room.phase == Starting ==> t.state == room.(lastRejection := t.state.lastRejection))
  {
  }

  predicate Begins(room: Room, next: Room) { next.phase == Starting && room.phase != Starting }

  function HandedOver(room: Room): Roster
    requires room.host.Some?
  {
    Roster(room.roomId, room.host.value, room.revision, ControllerSlots(room.members))
  }

  predicate Publishes(room: Room, t: Transition) {
    && |t.events| <= 2 && (t.events != [] ==> !t.events[0].MatchRosterReady?)
    && (Begins(room, t.state) <==> |t.events| == 2)
    && (Begins(room, t.state) ==> t.state.host.Some? && t.events[1] == MatchRosterReady(HandedOver(t.state)))
  }

  lemma MemberEvents(room: Room, id: string, action: Action)
    requires !action.CreateRoom? && !action.JoinRoom? && room.phase == Open
    ensures Publishes(room, ByMember(room, id, action))
  {
  }

  /** A step publishes a change or a rejection, and a roster exactly when it begins the match. */
  lemma StepEvents(room: Room, command: RoomCommand)
    ensures Publishes(room, Reduce(room, command))
  {
    if command.Revisioned? && !command.action.CreateRoom? && !command.action.JoinRoom? && room.phase == Open {
      MemberEvents(room, command.requester, command.action);
    }
  }

  lemma StepRosters(room: Room, command: RoomCommand)
    ensures var t := Reduce(room, command);
            && (Begins(room, t.state) ==> t.state.host.Some?)
            && RostersIn(t.events) == if Begins(room, t.state) then [HandedOver(t.state)] else []
  {
    StepEvents(room, command);
    OneOrTwoEvents(Reduce(room, command).events);
  }

  lemma OneOrTwoEvents(events: seq<RoomEvent>)
    requires |events| <= 2 && (events != [] ==> !events[0].MatchRosterReady?)
    ensures RostersIn(events) ==
            if |events| == 2 && events[1].MatchRosterReady? then [events[1].roster] else []
  {
    if |events| == 2 {
      assert events[1..] == [events[1]] && [events[1]][1..] == [];
    }
  }

  lemma {:induction false} RoomInvariantForever(room: Room, commands: seq<RoomCommand>)
    requires RoomInvariant(room)
    ensures RoomInvariant(RunRoom(room, commands))
    ensures RunRoom(room, commands).revision == room.revision + AcceptedChanges(room, commands)
    decreases |commands|
  {
    if commands != [] {
      var k := |commands| - 1;
      RoomInvariantForever(room, commands[..k]);
      ReduceKeepsInvariant(RunRoom(room, commands[..k]), commands[k]);
      OneStep(RunRoom(room, commands[..k]), commands[k]);
    }
  }

  /** Two accepted commands of one run never carry the same expected revision: the later one is higher. */
  lemma {:induction false} RevisionsClimb(room: Room, commands: seq<RoomCommand>, i: nat, j: nat)
    requires i < j < |commands| && commands[i].Revisioned? && commands[j].Revisioned?
    requires Reduce(RunRoom(room, commands[..i]), commands[i]).result.Ok?
    requires Reduce(RunRoom(room, commands[..j]), commands[j]).result.Ok?
    ensures commands[i].expected < commands[j].expected
  {
    OneStep(RunRoom(room, commands[..i]), commands[i]);
    OneStep(RunRoom(room, commands[..j]), commands[j]);
    RevisionGrows(room, commands, i + 1, j);
    assert commands[..i + 1][..i] == commands[..i];
  }

  lemma RevisionNeverFalls(room: Room, command: RoomCommand)
    ensures room.revision <= Reduce(room, command).state.revision
  {
    OneStep(room, command);
  }

  lemma {:induction false} RevisionGrows(room: Room, commands: seq<RoomCommand>, i: nat, j: nat)
    requires i <= j <= |commands|
    ensures RunRoom(room, commands[..i]).revision <= RunRoom(room, commands[..j]).revision
    decreases j
  {
    if i < j {
      RevisionGrows(room, commands, i, j - 1);
      assert commands[..j][..j - 1] == commands[..j - 1];
      RevisionNeverFalls(RunRoom(room, commands[..j - 1]), commands[j - 1]);
    }
  }

  /** A roster worth handing over: two distinct sessions, both ready, left seat first. */
  predicate SoundRoster(roster: Roster) {
    var c := roster.controllers;
    && |c| == 2 && c[0].side == Left && c[1].side == Right
    && c[0].ready && c[1].ready && c[0].sessionId != c[1].sessionId
  }

  lemma StartingSlots(room: Room)
    requires RoomInvariant(room) && !StartRefused(room)
    ensures SoundRoster(Roster(room.roomId, "", 0, ControllerSlots(room.members)))
  {
    var left, right := HolderOf(room.members, Left), HolderOf(room.members, Right);
    var c := ControllerSlots(room.members);
    assert c[0] in c && c[1] in c;
    var i :| 0 <= i < |room.members| && room.members[i] == left.value;
    var j :| 0 <= j < |room.members| && room.members[j] == right.value;
    MemberAt(room.members, i);
    MemberAt(room.members, j);
  }

  /**
    Single handoff: a run from a fresh room publishes a roster exactly when it has reached the
    starting phase, publishes it once, and the roster is the room's own seating, sound, with
    the host as authority. Starting is absorbing.
   */
  lemma {:induction false} SingleHandoff(roomId: string, commands: seq<RoomCommand>)
    ensures var room := RunRoom(InitialRoom(roomId), commands);
            var rosters := Rosters(InitialRoom(roomId), commands);
            && RoomInvariant(room)
            && rosters == (if room.phase == Starting
                           then [HandedOver(room)]
                           else [])
            && (room.phase == Starting ==> SoundRoster(rosters[0]))
    decreases |commands|
  {
    if commands != [] {
      var k := |commands| - 1;
      var before := RunRoom(InitialRoom(roomId), commands[..k]);
      SingleHandoff(roomId, commands[..k]);
      OneStep(before, commands[k]);
      StepRosters(before, commands[k]);
      ReduceKeepsInvariant(before, commands[k]);
      RoomIdStays(roomId, commands);
      var room := Reduce(before, commands[k]).state;
      if room.phase == Starting {
        StartingSlots(room);
      }
    }
  }

  lemma {:induction false} RoomIdStays(roomId: string, commands: seq<RoomCommand>)
    ensures RunRoom(InitialRoom(roomId), commands).roomId == roomId
    decreases |commands|
  {
    if commands != [] {
      RoomIdStays(roomId, commands[..|commands| - 1]);
    }
  }
}
