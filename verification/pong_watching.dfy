/**
  A run in which the host only watches: two players sit down and get ready, the host
  never takes a seat. The room lets the host begin and hands over a roster nobody can
  start; and if the host leaves first, the host's gate still offers to begin.
 */
module PongWatching {
  import opened Prelude
  import opened PongBall
  import opened PongMatch
  import opened PongRoom
  import opened PongWorkflow
  import opened PongHandoff
  import opened Text

  const WATCHING: seq<RoomCommand> :=
    [Revisioned("h", 0, CreateRoom("A")), Revisioned("l", 1, JoinRoom), Revisioned("r", 2, JoinRoom),
     Revisioned("l", 3, ClaimSeat(Left, None)), Revisioned("r", 4, ClaimSeat(Right, None)),
     Revisioned("l", 5, SetReady(true)), Revisioned("r", 6, SetReady(true))]

  const BEGIN := Revisioned("h", 7, BeginMatch)

  const HOST := Member("h", true, None, Human, false)

  function Guest(id: string, side: Option<Side>, ready: bool): Member { Member(id, true, side, Human, ready) }

  /** The open room of this run with these members. */
  function Table(revision: int, members: seq<Member>): Room {
    Room("room", Some("A"), revision, Open, Some("h"), members, None)
  }

  const WATCHED := Table(7, [HOST, Guest("l", Some(Left), true), Guest("r", Some(Right), true)])

  lemma OneMore(room: Room, commands: seq<RoomCommand>, n: nat)
    requires n < |commands|
    ensures RunRoom(room, commands[..n + 1]) == Reduce(RunRoom(room, commands[..n]), commands[n]).state
  {
    assert commands[..n + 1][..n] == commands[..n];
  }

  lemma CreateIsTable()
    ensures Reduce(InitialRoom("room"), WATCHING[0]).state == Table(1, [HOST])
  {
    assert TrimStart("A") == "A" && TrimEnd("A") == "A";
    assert UpperCase("A") == ["A"[0]] + UpperCase("A"[1..]);
    assert NormalCode("A") == "A";
  }

  /** Replacing a member changes its entry and no other. */
  lemma ReplacedAt(members: seq<Member>, k: nat, update: Member -> Member)
    requires PairwiseDistinct(members) && k < |members|
    ensures ReplaceMember(members, members[k].sessionId, update) == members[k := update(members[k])]
  {
    var replaced := ReplaceMember(members, members[k].sessionId, update);
    forall i | 0 <= i < |members| ensures replaced[i] == members[k := update(members[k])][i] {
      assert i < k ==> Distinct(members[i], members[k]);
      assert k < i ==> Distinct(members[k], members[i]);
    }
  }

  /** The entry of a member, and the list with that entry changed. */
  lemma EntryOf(members: seq<Member>, k: nat, update: Member -> Member)
    requires PairwiseDistinct(members) && k < |members|
    ensures MemberFor(members, members[k].sessionId) == Some(members[k])
    ensures ReplaceMember(members, members[k].sessionId, update) == members[k := update(members[k])]
  {
    MemberAt(members, k);
    ReplacedAt(members, k, update);
  }

  /** A member's change to its own entry, at the table's revision. */
  lemma GuestChanges(revision: int, members: seq<Member>, id: string, update: Member -> Member)
    ensures Change(Table(revision, members), id, update).state ==
            Table(revision + 1, ReplaceMember(members, id, update))
  {
  }

  predicate AtTable(members: seq<Member>, guest: Member) {
    MemberFor(members, guest.sessionId) == Some(guest) && guest.connected
  }

  lemma GuestActs(room: Room, guest: Member, action: Action)
    requires room.phase == Open && AtTable(room.members, guest)
    requires action.ClaimSeat? || action.SetReady?
    ensures Reduce(room, Revisioned(guest.sessionId, room.revision, action)) == ByMember(room, guest.sessionId, action)
  {
  }

  lemma SitsDown(room: Room, guest: Member, side: Side)
    requires !TakenByOther(room.members, guest.sessionId, side)
    ensures ByMember(room, guest.sessionId, ClaimSeat(side, None)) == Change(room, guest.sessionId, Seated(side, None))
  {
  }

  lemma GetsReady(room: Room, guest: Member)
    requires AtTable(room.members, guest) && guest.side.Some?
    ensures ByMember(room, guest.sessionId, SetReady(true)) == Change(room, guest.sessionId, Readied(true))
  {
  }

  lemma GuestSits(revision: int, members: seq<Member>, k: nat, side: Side)
    requires PairwiseDistinct(members) && k < |members| && members[k].connected
    requires !TakenByOther(members, members[k].sessionId, side)
    ensures Reduce(Table(revision, members), Revisioned(members[k].sessionId, revision, ClaimSeat(side, None))).state ==
            Table(revision + 1, members[k := Seated(side, None)(members[k])])
  {
    var room, guest := Table(revision, members), members[k];
    EntryOf(members, k, Seated(side, None));
    GuestActs(room, guest, ClaimSeat(side, None));
    SitsDown(room, guest, side);
    GuestChanges(revision, members, guest.sessionId, Seated(side, None));
  }

  lemma GuestIsReady(revision: int, members: seq<Member>, k: nat)
    requires PairwiseDistinct(members) && k < |members| && members[k].connected && members[k].side.Some?
    ensures Reduce(Table(revision, members), Revisioned(members[k].sessionId, revision, SetReady(true))).state ==
            Table(revision + 1, members[k := Readied(true)(members[k])])
  {
    var room, guest := Table(revision, members), members[k];
    EntryOf(members, k, Readied(true));
    GuestActs(room, guest, SetReady(true));
    GetsReady(room, guest);
    GuestChanges(revision, members, guest.sessionId, Readied(true));
  }

  lemma GuestJoins(revision: int, members: seq<Member>, id: string)
    requires forall m :: m in members ==> m.sessionId != id
    ensures Reduce(Table(revision, members), Revisioned(id, revision, JoinRoom)).state ==
            Table(revision + 1, members + [Guest(id, None, false)])
  {
  }

  const L0 := Guest("l", None, false)
  const L1 := Guest("l", Some(Left), false)
  const L2 := Guest("l", Some(Left), true)
  const R0 := Guest("r", None, false)
  const R1 := Guest("r", Some(Right), false)
  const R2 := Guest("r", Some(Right), true)

  /** The rooms after each command. */
  const ROOMS: seq<Room> :=
    [Table(1, [HOST]), Table(2, [HOST, L0]), Table(3, [HOST, L0, R0]), Table(4, [HOST, L1, R0]),
     Table(5, [HOST, L1, R1]), Table(6, [HOST, L2, R1]), Table(7, [HOST, L2, R2])]

  predicate Follows(n: nat) {
    n < 7 && ROOMS[n] == Reduce(if n == 0 then InitialRoom("room") else ROOMS[n - 1], WATCHING[n]).state
  }

  lemma EveryoneEnters()
    ensures Follows(0) && Follows(1) && Follows(2)
  {
    assert "h" != "l" && "h" != "r" && "l" != "r";
    CreateIsTable();
    GuestJoins(1, [HOST], "l");
    GuestJoins(2, [HOST, L0], "r");
  }

  lemma LeftSitsDown()
    ensures Follows(3)
  {
    assert "h" != "l" && "h" != "r" && "l" != "r";
    GuestSits(3, [HOST, L0, R0], 1, Left);
  }

  lemma RightSitsDown()
    ensures Follows(4)
  {
    assert "h" != "l" && "h" != "r" && "l" != "r";
    GuestSits(4, [HOST, L1, R0], 2, Right);
  }

  lemma LeftGetsReady()
    ensures Follows(5)
  {
    assert "h" != "l" && "h" != "r" && "l" != "r";
    GuestIsReady(5, [HOST, L1, R1], 1);
  }

  lemma RightGetsReady()
    ensures Follows(6)
  {
    assert "h" != "l" && "h" != "r" && "l" != "r";
    GuestIsReady(6, [HOST, L2, R1], 2);
  }

  lemma {:induction false} RoomAfter(n: nat)
    requires n < 7 && forall i :: 0 <= i <= n ==> Follows(i)
    ensures RunRoom(InitialRoom("room"), WATCHING[..n + 1]) == ROOMS[n]
  {
    OneMore(InitialRoom("room"), WATCHING, n);
    if n == 0 {
      assert WATCHING[..0] == [];
    } else {
      RoomAfter(n - 1);
    }
    assert Follows(n);
  }

  /** The seven commands reach the watched room. */
  lemma WatchedIsReached()
    ensures RunRoom(InitialRoom("room"), WATCHING) == WATCHED
    ensures RoomInvariant(WATCHED)
  {
    WatchedRun();
    InitialRoomInvariant();
    RoomInvariantForever(InitialRoom("room"), WATCHING);
  }

  lemma WatchedRun()
    ensures RunRoom(InitialRoom("room"), WATCHING) == WATCHED
  {
    EveryoneEnters();
    LeftSitsDown();
    RightSitsDown();
    LeftGetsReady();
    RightGetsReady();
    forall i | 0 <= i <= 6 ensures Follows(i) {
      assert i == 0 || i == 1 || i == 2 || i == 3 || i == 4 || i == 5 || i == 6;
    }
    RoomAfter(6);
    assert WATCHING[..7] == WATCHING;
  }

  lemma InitialRoomInvariant()
    ensures RoomInvariant(InitialRoom("room"))
  {
  }

  lemma WatchedMayStart()
    ensures !StartRefused(WATCHED)
    ensures MemberFor(WATCHED.members, "h") == Some(HOST)
  {
    WatchedIsReached();
    var m := WATCHED.members;
    HolderAt(m, 1, Left);
    HolderAt(m, 2, Right);
    assert ControllerSlots(m) == [Slot("l", Human, Left, true), Slot("r", Human, Right, true)];
    MemberAt(m, 0);
  }

  /**
    The run from an empty room that hands over a roster nobody can start: the host begins, the room publishes
    the roster with the host as authority, and the match refuses that authority as not seated.
   */
  lemma {:induction false} WatchingHostIsRefused()
    ensures var commands := WATCHING + [BEGIN];
            var rosters := Rosters(InitialRoom("room"), commands);
            && RunRoom(InitialRoom("room"), commands).phase == Starting
            && |rosters| == 1 && SoundRoster(rosters[0]) && rosters[0].authority == "h"
            && (var start := StartMatch("h", 0, Given(ModeOf(rosters[0])));
                Dispatch(Seat(rosters[0]), start) == Rejected(NotSeatedPlayer("h")))
  {
    var commands := WATCHING + [BEGIN];
    WatchedIsReached();
    WatchedMayStart();
    BeginMeans(WATCHED, "h");
    assert commands[..|commands| - 1] == WATCHING;
    BegunRoom(WATCHED);
    SingleHandoff("room", commands);
    var roster := Rosters(InitialRoom("room"), commands)[0];
    HandoffStartsIffHostSeated("room", commands);
    RosterStartsIffAuthoritySeated(roster);
  }

  lemma BegunRoom(room: Room)
    requires RoomInvariant(room) && Reduce(room, Revisioned("h", room.revision, BeginMatch)).result.Ok?
    ensures var begun := Reduce(room, Revisioned("h", room.revision, BeginMatch)).state;
            begun.phase == Starting && begun.host == Some("h") && begun.members == room.members
  {
    BeginMeans(room, "h");
  }

  /** The same run, but the host leaves instead: the host's gate still offers to begin, and the room refuses. */
  lemma {:induction false} WatchingHostStillSeesBegin()
    ensures var left := RunRoom(InitialRoom("room"), WATCHING + [Revisioned("h", 7, LeaveRoom)]);
            var seen := Workflow("h", Connected, Some(left), StageLobby, left.lastRejection);
            CanSend(seen, Begin) && !RoomAccepts(Begin, seen, left)
  {
    var w := Workflow("h", Connected, Some(WATCHED), StageLobby, None);
    var commands := WATCHING + [Revisioned("h", 7, LeaveRoom)];
    WatchedIsReached();
    WatchedMayStart();
    BeginMeans(WATCHED, "h");
    assert commands[..|commands| - 1] == WATCHING;
    HostLeavesGateStays(WATCHED, w);
  }
}
