/**
  The room and the match together: can the roster a room hands over be started by
  the authority it names?
 */
module PongHandoff {
  import opened Prelude
  import opened PongBall
  import opened PongReflex
  import opened PongMatch
  import opened PongMatchRuns
  import opened PongReflexMatch
  import opened PongRoom

  function SessionOf(slot: Slot): Session {
    Session(slot.sessionId, slot.controller, Some(slot.side), slot.ready)
  }

  /** A fresh match after each session of the roster has synced itself. */
  function Seat(roster: Roster): Match
    requires SoundRoster(roster)
  {
    var c := roster.controllers;
    Coordinate(Coordinate(INITIAL_MATCH, SyncSession(c[0].sessionId, SessionOf(c[0]))),
               SyncSession(c[1].sessionId, SessionOf(c[1])))
  }

  function ModeOf(roster: Roster): Mode
    requires SoundRoster(roster)
  {
    Mode(2, roster.controllers[0].controller, roster.controllers[1].controller)
  }

  predicate Holds(controllers: seq<Slot>, id: string) {
    exists c :: c in controllers && c.sessionId == id
  }

  lemma FirstSync(slot: Slot)
    ensures Coordinate(INITIAL_MATCH, SyncSession(slot.sessionId, SessionOf(slot))) ==
            INITIAL_MATCH.(sessions := [SessionOf(slot)], controllers := [slot])
  {
    var s := SessionOf(slot);
    assert Without([], slot.sessionId) + [s] == [s];
    assert FirstSeated([s], slot.side) == Some(s);
    assert slot.side != Left ==> FirstSeated([s], Left) == None;
    assert slot.side != Right ==> FirstSeated([s], Right) == None;
    assert Slots([s]) == [slot];
  }

  lemma SeatedMatch(roster: Roster)
    requires SoundRoster(roster)
    ensures Seat(roster) ==
            INITIAL_MATCH.(sessions := [SessionOf(roster.controllers[0]), SessionOf(roster.controllers[1])],
                           controllers := roster.controllers)
  {
    var c := roster.controllers;
    var s0, s1 := SessionOf(c[0]), SessionOf(c[1]);
    FirstSync(c[0]);
    assert Without([s0], c[1].sessionId) == [s0];
    assert [s0] + [s1] == [s0, s1];
    assert FindSession([s0], c[1].sessionId) == None && FindRival([s0], c[1].sessionId, Right) == None;
    FirstSeatedAppend([s0], s1, Left);
    FirstSeatedAppend([s0], s1, Right);
    assert Slots([s0, s1]) == [c[0], c[1]] == c;
  }

  /**
    A sound roster starts the match with exactly its own slots if its authority holds one of
    them, and is refused as not seated if it does not.
   */
  lemma RosterStartsIffAuthoritySeated(roster: Roster)
    requires SoundRoster(roster)
    ensures var started := Dispatch(Seat(roster), StartMatch(roster.authority, 0, Given(ModeOf(roster))));
            if Holds(roster.controllers, roster.authority) then
              && started.Accepted?
              && started.state.phase == Running && started.state.controllers == roster.controllers
              && started.state.authority == Some(roster.authority)
            else started == Rejected(NotSeatedPlayer(roster.authority))
  {
    SeatedMatch(roster);
    var m, c := Seat(roster), roster.controllers;
    assert m.sessions[0] in m.sessions && m.sessions[1] in m.sessions;
    assert c[0] in c && c[1] in c;
    assert IsSeated(m, roster.authority) <==> Holds(c, roster.authority);
    assert FindSlot(c, Left) == Some(c[0]);
    assert FindSlot(c[1..], Right) == Some(c[1]);
    assert FindSlot(c, Right) == Some(c[1]);
  }

  lemma SlotsAreHolders(room: Room, id: string)
    requires RoomInvariant(room) && MemberFor(room.members, id).Some?
    ensures Holds(ControllerSlots(room.members), id) <==> MemberFor(room.members, id).value.side.Some?
  {
    var m := MemberFor(room.members, id).value;
    var i :| 0 <= i < |room.members| && room.members[i] == m;
    var slots := ControllerSlots(room.members);
    if m.side.Some? {
      HolderAt(room.members, i, m.side.value);
      assert SeatSlot(room.members, m.side.value) == [Slot(m.sessionId, m.controller, m.side.value, m.ready)];
      assert m.side.value == Left || m.side.value == Right;
      assert SeatSlot(room.members, m.side.value)[0] in slots;
    } else {
      forall c | c in slots ensures c.sessionId != id {
        var holder := HolderOf(room.members, c.side).value;
        var j :| 0 <= j < |room.members| && room.members[j] == holder;
        MemberAt(room.members, j);
      }
    }
  }

  /**
    The handoff law, with its exact condition: the one roster a room run publishes can be started
    by the authority it names if and only if the room's host took a seat. The room itself lets a
    host begin without one.
   */
  lemma {:induction false} HandoffStartsIffHostSeated(roomId: string, commands: seq<RoomCommand>)
    requires RunRoom(InitialRoom(roomId), commands).phase == Starting
    ensures var room := RunRoom(InitialRoom(roomId), commands);
            var rosters := Rosters(InitialRoom(roomId), commands);
            && |rosters| == 1 && SoundRoster(rosters[0])
            && room.host.Some? && MemberFor(room.members, room.host.value).Some?
            && (Dispatch(Seat(rosters[0]), StartMatch(rosters[0].authority, 0, Given(ModeOf(rosters[0])))).Accepted?
                <==> MemberFor(room.members, room.host.value).value.side.Some?)
  {
    SingleHandoff(roomId, commands);
    var room := RunRoom(InitialRoom(roomId), commands);
    var roster := Rosters(InitialRoom(roomId), commands)[0];
    RosterStartsIffAuthoritySeated(roster);
    SlotsAreHolders(room, room.host.value);
  }

  // ---------------------------------------------------------------- reflex players seated

  function SyntheticRoster(): Roster {
    Roster("room", PlannerSessionId(Left), 1,
           [Slot(PlannerSessionId(Left), Mlx, Left, true), Slot(PlannerSessionId(Right), Mlx, Right, true)])
  }

  lemma SeatKeepsInvariant(roster: Roster)
    requires SoundRoster(roster)
    ensures MatchInvariant(Seat(roster))
  {
    var c := roster.controllers;
    var first := SyncSession(c[0].sessionId, SessionOf(c[0]));
    InitialMatchInvariant();
    CommandKeeps(INITIAL_MATCH, first);
    CommandKeeps(Coordinate(INITIAL_MATCH, first), SyncSession(c[1].sessionId, SessionOf(c[1])));
  }

  lemma SeatedFirst(roster: Roster)
    requires SoundRoster(roster)
    ensures FirstSeated(Seat(roster).sessions, Left) == Some(SessionOf(roster.controllers[0]))
    ensures FirstSeated(Seat(roster).sessions, Right) == Some(SessionOf(roster.controllers[1]))
  {
    SeatedMatch(roster);
    var s0, s1 := SessionOf(roster.controllers[0]), SessionOf(roster.controllers[1]);
    assert Seat(roster).sessions == [s0] + [s1];
    FirstSeatedAppend([s0], s1, Right);
    FirstSeatedAppend([s0], s1, Left);
  }

  /** The two synthetic sessions start a match in which both reflex theorems apply. */
  lemma SyntheticMatchIsReflexSeated()
    ensures SoundRoster(SyntheticRoster())
    ensures var started := Coordinate(Seat(SyntheticRoster()),
                                      StartMatch(PlannerSessionId(Left), 0, Given(ModeOf(SyntheticRoster()))));
            JustLaunched(started) && ReflexSeated(started, Left) && ReflexSeated(started, Right)
  {
    var roster := SyntheticRoster();
    assert PlannerSessionId(Left)[8] != PlannerSessionId(Right)[8];
    assert roster.controllers[0] in roster.controllers;
    var start := StartMatch(PlannerSessionId(Left), 0, Given(ModeOf(roster)));
    SeatedMatch(roster);
    SeatedFirst(roster);
    SeatKeepsInvariant(roster);
    RosterStartsIffAuthoritySeated(roster);
    CommandKeeps(Seat(roster), start);
    LaunchedIsFresh(Seat(roster), start);
  }
}
