/**
  The client side of the room: a projection and a gate that says, without asking
  the room, which commands the room would accept. The gate is compared with the
  room's reducer, command by command.
 */
module PongWorkflow {
  import opened Prelude
  import opened PongBall
  import opened PongMatch
  import opened PongRoom
  import opened Text

  datatype Connection = Connected | Connecting | Disconnected

  datatype MatchStage = StageLobby | StageRunning | StagePaused | StageFinished

  datatype Workflow = Workflow(sessionId: string, connection: Connection, room: Option<Room>,
                               stage: MatchStage, rejection: Option<Rejection>)

  datatype Fact =
    | ConnectionProjected(connection: Connection)
    | RoomProjected(room: Option<Room>)
    | MatchProjected(stage: MatchStage)
    | CommandWasRejected(rejection: Option<Rejection>)

  /** What a client may send; leaving the room is not among it, and `ready` may be missing. */
  datatype Event =
    | Create(code: string)
    | Join
    | Claim(side: Side, controller: Option<ControllerType>)
    | Release
    | Control(type_: ControllerType)
    | Ready(ready: Option<bool>)
    | Begin
    | ProjectConnection(connection: Connection)
    | Refresh

  function ReduceWorkflow(w: Workflow, fact: Fact): Workflow {
    match fact
    case ConnectionProjected(c) => w.(connection := c)
    case RoomProjected(r) => w.(room := r, rejection := if r.Some? then r.value.lastRejection else None)
    case MatchProjected(stage) => w.(stage := stage)
    case CommandWasRejected(r) => w.(rejection := r)
  }

  function ReadyCount(members: seq<Member>): nat {
    if members == [] then 0
    else (if members[0].connected && members[0].side.Some? && members[0].ready then 1 else 0)
         + ReadyCount(members[1..])
  }

  predicate IsHost(w: Workflow) { w.room.Some? && w.room.value.host == Some(w.sessionId) }

  predicate HasBothSeats(w: Workflow) {
    && w.room.Some?
    && (exists m :: m in w.room.value.members && m.side == Some(Left))
    && (exists m :: m in w.room.value.members && m.side == Some(Right))
  }

  predicate CanStart(w: Workflow) {
    && w.connection == Connected
    && w.room.Some? && w.room.value.phase == Open
    && IsHost(w) && HasBothSeats(w)
    && ReadyCount(w.room.value.members) == 2
  }

  predicate CanSend(w: Workflow, event: Event) {
    if event.ProjectConnection? || event.Refresh? then true
    else
      var connected := w.connection == Connected;
      var member := if w.room.Some? then MemberFor(w.room.value.members, w.sessionId) else None;
      var openMember := connected && w.room.Some? && w.room.value.phase == Open
                        && member.Some? && member.value.connected;
      match event
      case Create(_) => connected && (w.room.None? || w.room.value.phase == Empty)
      case Join => connected && w.room.Some? && w.room.value.phase == Open
                   && !(member.Some? && member.value.connected)
      case Claim(side, _) => openMember && !TakenByOther(w.room.value.members, w.sessionId, side)
      case Release => openMember
      case Control(_) => openMember
      case Ready(ready) => openMember && (ready.None? || !ready.value || member.value.side.Some?)
      case Begin => CanStart(w)
  }

  function ActionOf(event: Event): Action
    requires !event.ProjectConnection? && !event.Refresh?
  {
    match event
    case Create(code) => CreateRoom(code)
    case Join => JoinRoom
    case Claim(side, controller) => ClaimSeat(side, controller)
    case Release => ReleaseSeat
    case Control(t) => SetController(t)
    case Ready(ready) => SetReady(ready.Some? && ready.value)
    case Begin => BeginMatch
  }

  /** The command the adapter sends: the client's own session at the room's current revision. */
  function RoomCommandFor(event: Event, w: Workflow, room: Room): RoomCommand
    requires !event.ProjectConnection? && !event.Refresh?
  {
    Revisioned(w.sessionId, room.revision, ActionOf(event))
  }

  predicate RoomAccepts(event: Event, w: Workflow, room: Room)
    requires !event.ProjectConnection? && !event.Refresh?
  {
    Reduce(room, RoomCommandFor(event, w, room)).result.Ok?
  }

  // ---------------------------------------------------------------- counting

  predicate ReadyOn(members: seq<Member>, side: Side) {
    var holder := HolderOf(members, side);
    holder.Some? && holder.value.connected && holder.value.ready
  }

  lemma HolderUnfolds(members: seq<Member>, side: Side)
    ensures members == [] ==> HolderOf(members, side).None?
    ensures members != [] ==>
              HolderOf(members, side) ==
              if members[0].side == Some(side) then Some(members[0]) else HolderOf(members[1..], side)
  {
  }

  lemma HeldOnce(members: seq<Member>, side: Side)
    requires PairwiseDistinct(members) && members != [] && members[0].side == Some(side)
    ensures HolderOf(members[1..], side).None?
  {
    forall j | 0 <= j < |members[1..]| ensures members[1..][j].side != Some(side) {
      assert Distinct(members[0], members[j + 1]);
    }
  }

  lemma {:induction false} CountBySeat(members: seq<Member>)
    requires PairwiseDistinct(members)
    ensures ReadyCount(members) ==
            (if ReadyOn(members, Left) then 1 else 0) + (if ReadyOn(members, Right) then 1 else 0)
  {
    HolderUnfolds(members, Left);
    HolderUnfolds(members, Right);
    if members != [] {
      CountBySeat(members[1..]);
      if members[0].side.Some? {
        HeldOnce(members, members[0].side.value);
        assert members[0].side.value == Left || members[0].side.value == Right;
      }
    }
  }

  /** What the client counts is what the room checks, seat by seat. */
  lemma CountIsReadiness(room: Room)
    requires RoomInvariant(room)
    ensures ReadyCount(room.members) == 2 <==> !StartRefused(room)
  {
    CountBySeat(room.members);
    var left, right := HolderOf(room.members, Left), HolderOf(room.members, Right);
    var slots := ControllerSlots(room.members);
    if left.Some? && right.Some? {
      assert slots == [Slot(left.value.sessionId, left.value.controller, Left, left.value.ready),
                       Slot(right.value.sessionId, right.value.controller, Right, right.value.ready)];
      assert slots[0] in slots && slots[1] in slots;
      forall m | m in room.members && m.side.Some? ensures Some(m) == left || Some(m) == right {
        var i :| 0 <= i < |room.members| && room.members[i] == m;
        HolderAt(room.members, i, m.side.value);
        assert m.side.value == Left || m.side.value == Right;
      }
    }
  }

  // ---------------------------------------------------------------- agreement

  predicate RedundantJoin(event: Event, w: Workflow, room: Room) {
    && event.Join? && MemberFor(room.members, w.sessionId).Some?
    && MemberFor(room.members, w.sessionId).value.connected
    && room.phase == Open
  }

  predicate BlankCreate(event: Event) { event.Create? && Blank(event.code) }

  /** The room refuses exactly the codes that are nothing but white space. */
  lemma CodeIsBlank(code: string)
    ensures NormalCode(code) == "" <==> Blank(code)
  {
    BlankIsTrimmedAway(code);
  }

  predicate BeginByAbsentHost(event: Event, w: Workflow, room: Room) {
    && event.Begin? && room.host == Some(w.sessionId)
    && MemberFor(room.members, w.sessionId).Some? && !MemberFor(room.members, w.sessionId).value.connected
  }

  /** What the two sides should agree on, command by command. */
  predicate Agrees(event: Event, w: Workflow, room: Room)
    requires !event.ProjectConnection? && !event.Refresh?
  {
    RoomAccepts(event, w, room) <==>
      || RedundantJoin(event, w, room)
      || (CanSend(w, event) && !BlankCreate(event) && !BeginByAbsentHost(event, w, room))
  }

  lemma BeginAgrees(w: Workflow, room: Room)
    requires RoomInvariant(room) && w.room == Some(room) && w.connection == Connected
    ensures Agrees(Begin, w, room)
  {
    CountIsReadiness(room);
    if !StartRefused(room) {
      BothSeatsWhenStartable(room, w);
    }
    BeginMeans(room, w.sessionId);
  }

  lemma SeatEventsAgree(event: Event, w: Workflow, room: Room)
    requires RoomInvariant(room) && w.room == Some(room) && w.connection == Connected
    requires event.Claim? || event.Release? || event.Control? || event.Ready?
    ensures Agrees(event, w, room)
  {
  }

  lemma EntryEventsAgree(event: Event, w: Workflow, room: Room)
    requires RoomInvariant(room) && w.room == Some(room) && w.connection == Connected
    requires event.Create? || event.Join?
    ensures Agrees(event, w, room)
  {
    if event.Create? {
      CodeIsBlank(event.code);
    }
  }

  /**
    The gate agrees with the room, both ways, on every reachable room a connected client sees,
    up to three named cases: the room also accepts a join by a member already connected; the gate
    also lets through a create with a blank code and a begin by a host who has left.
   */
  lemma GateAgreesWithRoom(event: Event, w: Workflow, room: Room)
    requires RoomInvariant(room) && w.room == Some(room) && w.connection == Connected
    requires !event.ProjectConnection? && !event.Refresh?
    ensures RoomAccepts(event, w, room) <==>
            || RedundantJoin(event, w, room)
            || (CanSend(w, event) && !BlankCreate(event) && !BeginByAbsentHost(event, w, room))
  {
    if event.Begin? {
      BeginAgrees(w, room);
    } else if event.Create? || event.Join? {
      EntryEventsAgree(event, w, room);
    } else {
      SeatEventsAgree(event, w, room);
    }
  }

  lemma BothSeatsWhenStartable(room: Room, w: Workflow)
    requires RoomInvariant(room) && w.room == Some(room) && !StartRefused(room)
    ensures HasBothSeats(w)
  {
    assert HolderOf(room.members, Left).Some? && HolderOf(room.members, Right).Some?;
  }

  /**
    How the absent host comes about: whenever the room would let a connected host without a seat
    begin, and that host leaves instead, the gate still shows begin while the room refuses it.
   */
  lemma HostLeavesGateStays(room: Room, w: Workflow)
    requires RoomInvariant(room) && w.room == Some(room) && w.connection == Connected
    requires RoomAccepts(Begin, w, room) && MemberFor(room.members, w.sessionId).value.side.None?
    ensures var left := Reduce(room, Revisioned(w.sessionId, room.revision, LeaveRoom)).state;
            var seen := ReduceWorkflow(w, RoomProjected(Some(left)));
            && RoomInvariant(left) && BeginByAbsentHost(Begin, seen, left)
            && CanSend(seen, Begin) && !RoomAccepts(Begin, seen, left)
  {
    var leave := Revisioned(w.sessionId, room.revision, LeaveRoom);
    var left := Reduce(room, leave).state;
    BeginMeans(room, w.sessionId);
    LeaveMeans(room, w.sessionId);
    ReduceKeepsInvariant(room, leave);
    UnseatedLeaveKeepsSeats(room, w.sessionId);
    AbsentHostSeesBegin(left, ReduceWorkflow(w, RoomProjected(Some(left))));
  }

  lemma AbsentHostSeesBegin(room: Room, w: Workflow)
    requires RoomInvariant(room) && w.room == Some(room) && w.connection == Connected
    requires room.phase == Open && room.host == Some(w.sessionId) && !StartRefused(room)
    requires MemberFor(room.members, w.sessionId).Some? && !MemberFor(room.members, w.sessionId).value.connected
    ensures BeginByAbsentHost(Begin, w, room) && CanSend(w, Begin) && !RoomAccepts(Begin, w, room)
  {
    CountIsReadiness(room);
    BothSeatsWhenStartable(room, w);
    BeginMeans(room, w.sessionId);
  }

  lemma BeginMeans(room: Room, id: string)
    requires RoomInvariant(room)
    ensures Reduce(room, Revisioned(id, room.revision, BeginMatch)).result.Ok? <==>
            && room.phase == Open && room.host == Some(id) && !StartRefused(room)
            && MemberFor(room.members, id).Some? && MemberFor(room.members, id).value.connected
  {
  }

  lemma LeaveMeans(room: Room, id: string)
    requires room.phase == Open
    requires MemberFor(room.members, id).Some? && MemberFor(room.members, id).value.connected
    ensures var left := Reduce(room, Revisioned(id, room.revision, LeaveRoom)).state;
            && left == Change(room, id, Departed).state
            && MemberFor(left.members, id) == Some(Departed(MemberFor(room.members, id).value))
  {
    assert Reduce(room, Revisioned(id, room.revision, LeaveRoom)) == ByMember(room, id, LeaveRoom);
    ReplacedMember(room.members, id);
  }

  lemma {:induction false} ReplacedMember(members: seq<Member>, id: string)
    requires MemberFor(members, id).Some?
    ensures MemberFor(ReplaceMember(members, id, Departed), id) == Some(Departed(MemberFor(members, id).value))
  {
    if members[0].sessionId != id {
      ReplacedMember(members[1..], id);
    }
  }

  lemma UnseatedLeaveChangesNoSeat(room: Room, id: string)
    requires RoomInvariant(room) && MemberFor(room.members, id).Some? && MemberFor(room.members, id).value.side.None?
    ensures var left := ReplaceMember(room.members, id, Departed);
            forall i :: 0 <= i < |left| ==>
              left[i].side == room.members[i].side && (left[i].side.Some? ==> left[i] == room.members[i])
  {
    var left := ReplaceMember(room.members, id, Departed);
    forall i | 0 <= i < |left| ensures left[i].side.Some? ==> left[i] == room.members[i] {
      MemberAt(room.members, i);
    }
  }

  lemma SameSlots(a: seq<Member>, b: seq<Member>)
    requires |a| == |b| && forall i :: 0 <= i < |a| ==> a[i].side == b[i].side && (b[i].side.Some? ==> a[i] == b[i])
    ensures ControllerSlots(a) == ControllerSlots(b)
    ensures (exists m :: m in b && m.side.Some? && !m.connected) ==>
              (exists m :: m in a && m.side.Some? && !m.connected)
  {
    SameHolder(a, b, Left);
    SameHolder(a, b, Right);
    if m :| m in b && m.side.Some? && !m.connected {
      var i :| 0 <= i < |b| && b[i] == m;
      assert a[i] in a;
    }
  }

  lemma UnseatedLeaveKeepsSeats(room: Room, id: string)
    requires RoomInvariant(room) && MemberFor(room.members, id).Some? && MemberFor(room.members, id).value.side.None?
    requires !StartRefused(room)
    ensures !StartRefused(room.(members := ReplaceMember(room.members, id, Departed)))
  {
    UnseatedLeaveChangesNoSeat(room, id);
    SameSlots(room.members, ReplaceMember(room.members, id, Departed));
  }

  lemma {:induction false} SameHolder(a: seq<Member>, b: seq<Member>, side: Side)
    requires |a| == |b| && forall i :: 0 <= i < |a| ==> a[i].side == b[i].side && (b[i].side.Some? ==> a[i] == b[i])
    ensures HolderOf(a, side) == HolderOf(b, side)
  {
    if a != [] {
      SameHolder(a[1..], b[1..], side);
    }
  }
}
