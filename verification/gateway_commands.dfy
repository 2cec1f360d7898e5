/**
  Command conservation: over every run of the source, each request that was issued
  is either settled once or still pending once, and losing the connection settles
  everything that was pending.
 */
module GatewayCommands {
  import opened Prelude
  import opened GatewaySource

  function SettledIds(settled: seq<Settlement>): seq<RequestId> {
    seq(|settled|, i requires 0 <= i < |settled| => settled[i].id)
  }

  /** Ids built by the source, in the order of its counter. */
  predicate Climbs(ids: seq<RequestId>) {
    && (forall i :: 0 <= i < |ids| ==> !ids[i].Foreign?)
    && (forall i, j :: 0 <= i < j < |ids| ==> ids[i].number < ids[j].number)
  }

  predicate OnlySends(ids: seq<RequestId>) { forall i :: 0 <= i < |ids| ==> ids[i].SendId? }

  predicate OnlyAsks(ids: seq<RequestId>) { forall i :: 0 <= i < |ids| ==> ids[i].AskId? }

  /** The counter numbers the issued ids, so none repeats. */
  predicate Counted(d: Desk) {
    && |d.issued| == d.requestSequence
    && (forall i :: 0 <= i < |d.issued| ==> !d.issued[i].Foreign? && d.issued[i].number == i + 1)
  }

  /** The send order lists the pending sends, each once and oldest first. */
  predicate Listed(d: Desk) {
    && Climbs(d.pendingSendOrder) && OnlySends(d.pendingSendOrder)
    && Climbs(d.pendingAsks) && OnlyAsks(d.pendingAsks)
    && d.pendingSends == (set id | id in d.pendingSendOrder)
  }

  function Accounted(d: Desk): multiset<RequestId> {
    multiset(SettledIds(d.settled)) + multiset(d.pendingSendOrder) + multiset(d.pendingAsks)
  }

  predicate Books(d: Desk) {
    Counted(d) && Listed(d) && multiset(d.issued) == Accounted(d)
  }

  // ---------------------------------------------------------------- sequences of ids

  lemma SettleOne(settled: seq<Settlement>, id: RequestId, outcome: Outcome)
    ensures SettledIds(settled + [Settlement(id, outcome)]) == SettledIds(settled) + [id]
  {
  }

  lemma SettleMany(a: seq<Settlement>, b: seq<Settlement>)
    ensures SettledIds(a + b) == SettledIds(a) + SettledIds(b)
  {
  }

  lemma {:induction false} AllRejectedIds(ids: seq<RequestId>)
    ensures SettledIds(AllRejected(ids)) == ids
  {
    if ids != [] {
      AllRejectedIds(ids[..|ids| - 1]);
      SettleOne(AllRejected(ids[..|ids| - 1]), ids[|ids| - 1], Rejected);
    }
  }

  lemma {:induction false} RejectionsIds(ids: seq<RequestId>, among: set<RequestId>)
    requires Climbs(ids) && forall i :: 0 <= i < |ids| ==> ids[i] in among
    ensures SettledIds(Rejections(ids, among)) == ids
  {
    if ids != [] {
      RejectionsIds(ids[1..], among - {ids[0]});
      SettleMany([Settlement(ids[0], Rejected)], Rejections(ids[1..], among - {ids[0]}));
    }
  }

  lemma {:induction false} RemoveFirstIs(ids: seq<RequestId>, k: nat)
    requires Climbs(ids) && k < |ids|
    ensures RemoveFirst(ids, ids[k]) == ids[..k] + ids[k + 1..]
  {
    if k > 0 {
      RemoveFirstIs(ids[1..], k - 1);
    }
  }

  lemma DropOne(ids: seq<RequestId>, k: nat)
    requires Climbs(ids) && k < |ids|
    ensures var rest := ids[..k] + ids[k + 1..];
            && Climbs(rest) && ids[k] !in rest && multiset(rest) + multiset{ids[k]} == multiset(ids)
  {
    var rest := ids[..k] + ids[k + 1..];
    assert ids == ids[..k] + [ids[k]] + ids[k + 1..];
    forall i | 0 <= i < |rest| ensures rest[i] == (if i < k then ids[i] else ids[i + 1]) && rest[i] != ids[k] {
    }
  }

  lemma RemoveFirstFacts(ids: seq<RequestId>, id: RequestId)
    requires Climbs(ids) && id in ids
    ensures var rest := RemoveFirst(ids, id);
            && Climbs(rest) && multiset(rest) + multiset{id} == multiset(ids)
            && (set x | x in rest) == (set x | x in ids) - {id}
  {
    var k :| 0 <= k < |ids| && ids[k] == id;
    RemoveFirstIs(ids, k);
    DropOne(ids, k);
    SameMembers(ids, RemoveFirst(ids, id), id);
  }

  lemma SameMembers(ids: seq<RequestId>, rest: seq<RequestId>, id: RequestId)
    requires multiset(rest) + multiset{id} == multiset(ids) && id !in rest
    ensures (set x | x in rest) == (set x | x in ids) - {id}
  {
    forall x ensures x in rest <==> x in ids && x != id {
      assert x in rest <==> x in multiset(rest);
      assert x in ids <==> x in multiset(rest) + multiset{id};
    }
  }

  /** Removing an id leaves the others' kinds alone. */
  lemma {:induction false} RemovedStays(ids: seq<RequestId>, id: RequestId)
    ensures OnlySends(ids) ==> OnlySends(RemoveFirst(ids, id))
    ensures OnlyAsks(ids) ==> OnlyAsks(RemoveFirst(ids, id))
  {
    if ids != [] && ids[0] != id {
      RemovedStays(ids[1..], id);
    }
  }

  /** When the order lists only pending sends, nothing is skipped. */
  lemma NothingToSkip(d: Desk)
    requires Listed(d)
    ensures SkipSettled(d.pendingSendOrder, d.pendingSends) == d.pendingSendOrder
  {
  }

  // ---------------------------------------------------------------- what each operation keeps

  /** The send an answer takes: the one it names if that is pending, the oldest if it names none. */
  function Taken(d: Desk, id: Option<RequestId>): Option<RequestId> {
    if Names(id) then if id.value in d.pendingSends then id else None
    else if d.pendingSendOrder == [] then None else Some(d.pendingSendOrder[0])
  }

  lemma TakeMeans(d: Desk, id: Option<RequestId>)
    requires Listed(d)
    ensures TakePendingSend(d, id) ==
            match Taken(d, id)
            case None => (d, None)
            case Some(send) => (d.(pendingSends := d.pendingSends - {send},
                                   pendingSendOrder := RemoveFirst(d.pendingSendOrder, send)), Some(send))
  {
    NothingToSkip(d);
  }

  lemma SettleSendKeeps(d: Desk, id: Option<RequestId>, outcome: Outcome)
    requires Books(d)
    ensures Books(SettleSend(d, id, outcome))
  {
    TakeMeans(d, id);
    if Taken(d, id).Some? {
      var send := Taken(d, id).value;
      RemoveFirstFacts(d.pendingSendOrder, send);
      RemovedStays(d.pendingSendOrder, send);
      SettleOne(d.settled, send, outcome);
    }
  }

  lemma SettleAskKeeps(d: Desk, id: RequestId, outcome: Outcome)
    requires Books(d) && id in d.pendingAsks
    ensures Books(SettleAsk(d, id, outcome))
  {
    RemoveFirstFacts(d.pendingAsks, id);
    RemovedStays(d.pendingAsks, id);
    SettleOne(d.settled, id, outcome);
  }

  /** Losing the connection settles everything pending, and nothing else. */
  lemma RejectKeeps(d: Desk)
    requires Books(d)
    ensures var lost := RejectDesk(d);
            && Books(lost) && lost.pendingSends == {} && lost.pendingSendOrder == [] && lost.pendingAsks == []
            && SettledIds(lost.settled) == SettledIds(d.settled) + d.pendingSendOrder + d.pendingAsks
            && multiset(lost.issued) == multiset(SettledIds(lost.settled))
  {
    var sends, asks := Rejections(d.pendingSendOrder, d.pendingSends), AllRejected(d.pendingAsks);
    RejectionsIds(d.pendingSendOrder, d.pendingSends);
    AllRejectedIds(d.pendingAsks);
    SettleMany(d.settled, sends);
    SettleMany(d.settled + sends, asks);
  }

  lemma ErrorKeeps(d: Desk, id: Option<RequestId>)
    requires Books(d)
    ensures Books(ErrorDesk(d, id))
  {
    TakeMeans(d, id);
    if Names(id) && id.value in d.pendingAsks {
      SettleAskKeeps(d, id.value, Rejected);
    } else if Taken(d, id).Some? {
      SettleSendKeeps(d, id, Rejected);
    } else {
      RejectKeeps(d);
    }
  }

  /** What is pending was issued, so its number is at most the counter. */
  lemma PendingWasIssued(d: Desk, id: RequestId)
    requires Books(d) && (id in d.pendingSendOrder || id in d.pendingAsks)
    ensures !id.Foreign? && 1 <= id.number <= d.requestSequence
  {
    assert id in Accounted(d);
    assert id in multiset(d.issued);
    assert id in d.issued;
  }

  lemma ClimbsOn(ids: seq<RequestId>, id: RequestId)
    requires Climbs(ids) && !id.Foreign?
    requires forall other :: other in ids ==> other.number < id.number
    ensures Climbs(ids + [id])
  {
    forall i | 0 <= i < |ids| ensures ids[i].number < id.number {
      assert ids[i] in ids;
    }
  }

  lemma RecordedIsListed(d: Desk, id: RequestId)
    requires Books(d) && !id.Foreign? && id.number == d.requestSequence + 1
    ensures Listed(Recorded(d, id))
  {
    var pending := if id.SendId? then d.pendingSendOrder else d.pendingAsks;
    forall other | other in pending ensures other.number < id.number {
      PendingWasIssued(d, other);
    }
    ClimbsOn(pending, id);
    if id.SendId? {
      assert (set x | x in d.pendingSendOrder + [id]) == d.pendingSends + {id};
    }
  }

  lemma RecordedKeeps(d: Desk, id: RequestId)
    requires Books(d) && !id.Foreign? && id.number == d.requestSequence + 1
    ensures Books(Recorded(d, id))
  {
    RecordedIsListed(d, id);
  }

  lemma IssueKeeps(d: Desk, id: RequestId, socketThrows: bool)
    requires Books(d) && !id.Foreign? && id.number == d.requestSequence + 1
    ensures Books(IssueDesk(d, id, socketThrows))
  {
    var asked := Recorded(d, id);
    RecordedKeeps(d, id);
    if socketThrows {
      if id.SendId? {
        assert id in asked.pendingSends;
        SettleSendKeeps(asked, Some(id), Rejected);
      } else {
        assert asked.pendingAsks[|asked.pendingAsks| - 1] == id;
        SettleAskKeeps(asked, id, Rejected);
      }
    }
  }

  predicate Loses<P>(e: Event<P>) { e.SocketClosed? || e.SocketFailed? || e.AuthFailed? || e.CloseSource? }

  /** What a step does to the bookkeeping. */
  function DeskAfter<P>(s: Source<P>, e: Event<P>): Desk {
    match e
    case FromServer(AckFrame(id)) => SettleSend(s.desk, id, Resolved)
    case FromServer(ReplyFrame(id)) => if id in s.desk.pendingAsks then SettleAsk(s.desk, id, Resolved) else s.desk
    case FromServer(ErrorFrame(id)) => ErrorDesk(s.desk, id)
    case FromServer(_) => s.desk
    case Send(throws) =>
      if s.ready == IsReady then IssueDesk(s.desk, SendId(s.desk.requestSequence + 1), throws) else s.desk
    case Ask(throws) =>
      if s.ready == IsReady then IssueDesk(s.desk, AskId(s.desk.requestSequence + 1), throws) else s.desk
    case _ => RejectDesk(s.desk)
  }

  lemma StepMovesDesk<P>(s: Source<P>, e: Event<P>, readyOnStatus: bool)
    ensures Step(s, e, readyOnStatus).desk == DeskAfter(s, e)
  {
  }

  lemma RejectedBooks(d: Desk)
    requires Books(d)
    ensures Books(RejectDesk(d))
  {
    RejectKeeps(d);
  }

  lemma FrameKeepsBooks<P>(s: Source<P>, frame: Frame<P>)
    requires Books(s.desk)
    ensures Books(DeskAfter(s, FromServer(frame)))
  {
    match frame
    case AckFrame(id) => SettleSendKeeps(s.desk, id, Resolved);
    case ReplyFrame(id) => if id in s.desk.pendingAsks { SettleAskKeeps(s.desk, id, Resolved); }
    case ErrorFrame(id) => ErrorKeeps(s.desk, id);
    case _ =>
  }

  lemma RequestKeepsBooks<P>(s: Source<P>, e: Event<P>)
    requires Books(s.desk) && (e.Send? || e.Ask?)
    ensures Books(DeskAfter(s, e))
  {
    if s.ready == IsReady {
      if e.Send? {
        IssueKeeps(s.desk, SendId(s.desk.requestSequence + 1), e.socketThrows);
      } else {
        IssueKeeps(s.desk, AskId(s.desk.requestSequence + 1), e.socketThrows);
      }
    }
  }

  lemma DeskKeepsBooks<P>(s: Source<P>, e: Event<P>)
    requires Books(s.desk)
    ensures Books(DeskAfter(s, e))
  {
    if e.FromServer? {
      FrameKeepsBooks(s, e.frame);
    } else if e.Send? || e.Ask? {
      RequestKeepsBooks(s, e);
    } else {
      RejectedBooks(s.desk);
      assert DeskAfter(s, e) == RejectDesk(s.desk);
    }
  }

  // ---------------------------------------------------------------- over whole runs

  /** The books balance in every state the source can reach. */
  lemma {:induction false} BooksForever<P>(events: seq<Event<P>>, readyOnStatus: bool)
    ensures Books(Run(events, readyOnStatus).desk)
    decreases |events|
  {
    if events != [] {
      BooksForever(events[..|events| - 1], readyOnStatus);
      StepMovesDesk(Run(events[..|events| - 1], readyOnStatus), events[|events| - 1], readyOnStatus);
      DeskKeepsBooks(Run(events[..|events| - 1], readyOnStatus), events[|events| - 1]);
    }
  }

  lemma {:induction false} MultiplicityAtMostOne(ids: seq<RequestId>, id: RequestId)
    requires Climbs(ids)
    ensures multiset(ids)[id] <= 1
  {
    if ids != [] {
      var rest := ids[..|ids| - 1];
      assert ids == rest + [ids[|ids| - 1]];
      MultiplicityAtMostOne(rest, id);
      if id == ids[|ids| - 1] {
        assert id !in rest;
        assert id !in multiset(rest);
      }
    }
  }

  lemma TwiceInSequence(ids: seq<RequestId>, i: nat, j: nat)
    requires i < j < |ids|
    ensures ids[i] == ids[j] ==> multiset(ids)[ids[i]] >= 2
  {
    assert ids == ids[..j] + [ids[j]] + ids[j + 1..];
    assert ids[..j][i] == ids[i];
    assert ids[i] in multiset(ids[..j]);
  }

  lemma SettledOnce(d: Desk, i: nat, j: nat)
    requires Books(d) && i < j < |d.settled|
    ensures d.settled[i].id != d.settled[j].id
  {
    var ids := SettledIds(d.settled);
    MultiplicityAtMostOne(d.issued, ids[i]);
    assert multiset(d.issued)[ids[i]] >= multiset(ids)[ids[i]];
    TwiceInSequence(ids, i, j);
  }

  /** Exactly one of settled, pending as a send, pending as an ask. */
  predicate InOnePlace(d: Desk, id: RequestId) {
    && (id in d.issued <==> id in SettledIds(d.settled) || id in d.pendingSends || id in d.pendingAsks)
    && !(id in SettledIds(d.settled) && id in d.pendingSends)
    && !(id in SettledIds(d.settled) && id in d.pendingAsks)
    && !(id in d.pendingSends && id in d.pendingAsks)
  }

  lemma BalancedBooks(d: Desk, id: RequestId)
    requires Books(d)
    ensures InOnePlace(d, id)
    ensures |d.issued| == |d.settled| + |d.pendingSendOrder| + |d.pendingAsks|
  {
    assert id in d.issued <==> id in multiset(d.issued);
    assert id in SettledIds(d.settled) <==> id in multiset(SettledIds(d.settled));
    assert id in d.pendingSendOrder <==> id in multiset(d.pendingSendOrder);
    assert id in d.pendingAsks <==> id in multiset(d.pendingAsks);
    MultiplicityAtMostOne(d.issued, id);
    assert multiset(d.issued)[id] == Accounted(d)[id];
    assert |multiset(d.issued)| == |Accounted(d)|;
  }

  /**
    Conservation: in every reachable state no id was issued twice, no request has settled twice, and
    each issued request is exactly one of settled, pending as a send, pending as an ask; nothing else is.
   */
  lemma CommandConservation<P>(events: seq<Event<P>>, readyOnStatus: bool)
    ensures var d := Run(events, readyOnStatus).desk;
            && (forall i, j :: 0 <= i < j < |d.issued| ==> d.issued[i] != d.issued[j])
            && (forall i, j :: 0 <= i < j < |d.settled| ==> d.settled[i].id != d.settled[j].id)
            && (forall id :: InOnePlace(d, id))
            && |d.issued| == |d.settled| + |d.pendingSendOrder| + |d.pendingAsks|
  {
    var d := Run(events, readyOnStatus).desk;
    BooksForever(events, readyOnStatus);
    forall id ensures InOnePlace(d, id) {
      BalancedBooks(d, id);
    }
    BalancedBooks(d, SendId(0));
    forall i, j | 0 <= i < j < |d.settled| ensures d.settled[i].id != d.settled[j].id {
      SettledOnce(d, i, j);
    }
  }

  predicate Extends(d: Desk, next: Desk) { d.settled <= next.settled && d.issued <= next.issued }

  lemma TakingExtends(d: Desk, id: Option<RequestId>, outcome: Outcome)
    ensures Extends(d, SettleSend(d, id, outcome)) && Extends(d, ErrorDesk(d, id))
  {
  }

  lemma StepExtends<P>(s: Source<P>, e: Event<P>, readyOnStatus: bool)
    ensures Extends(s.desk, Step(s, e, readyOnStatus).desk)
  {
    if e.FromServer? && (e.frame.AckFrame? || e.frame.ErrorFrame?) {
      TakingExtends(s.desk, e.frame.id, Resolved);
    }
  }

  /**
    Settlements are final: of two moments of a run the later one has every settlement and every issued id of
    the earlier one, in the same places, so a request is never settled differently afterwards.
   */
  lemma {:induction false} SettlementsAreFinal<P>(events: seq<Event<P>>, n: nat, readyOnStatus: bool)
    requires n <= |events|
    ensures Extends(Run(events[..n], readyOnStatus).desk, Run(events, readyOnStatus).desk)
    ensures var early, late := Run(events[..n], readyOnStatus).desk.settled, Run(events, readyOnStatus).desk.settled;
            forall i, j :: 0 <= i < |early| && 0 <= j < |late| && early[i].id == late[j].id ==> i == j
    decreases |events|
  {
    if n == |events| {
      assert events[..n] == events;
    } else {
      var before := events[..|events| - 1];
      assert before[..n] == events[..n];
      SettlementsAreFinal(before, n, readyOnStatus);
      StepExtends(Run(before, readyOnStatus), events[|events| - 1], readyOnStatus);
    }
    CommandConservation(events, readyOnStatus);
  }

  /** Closing the source, or losing its socket or its authentication, leaves no request open. */
  lemma DisconnectSettlesAll<P>(events: seq<Event<P>>, e: Event<P>, readyOnStatus: bool)
    requires Loses(e)
    ensures var s := Run(events + [e], readyOnStatus);
            && s.desk.pendingSends == {} && s.desk.pendingSendOrder == [] && s.desk.pendingAsks == []
            && multiset(s.desk.issued) == multiset(SettledIds(s.desk.settled))
            && s.ready != Waiting
  {
    assert (events + [e])[..|events|] == events;
    BooksForever(events, readyOnStatus);
    RejectKeeps(Run(events, readyOnStatus).desk);
  }

  predicate Oldest(d: Desk, oldest: RequestId) {
    && oldest in d.pendingSends && oldest.SendId?
    && (forall other :: other in d.pendingSends ==> other.SendId? && oldest.number <= other.number)
  }

  predicate SettlesOldest(d: Desk, next: Desk, oldest: RequestId) {
    && Oldest(d, oldest)
    && next.settled == d.settled + [Settlement(oldest, Resolved)]
    && next.pendingSends == d.pendingSends - {oldest}
  }

  lemma OldestIsTaken(d: Desk, id: Option<RequestId>)
    requires Books(d) && !Names(id) && d.pendingSends != {}
    ensures d.pendingSendOrder != [] && SettlesOldest(d, SettleSend(d, id, Resolved), d.pendingSendOrder[0])
  {
    TakeMeans(d, id);
    HeadIsPending(d);
  }

  /** An answer that names no request settles the pending send issued first. */
  lemma UnnamedAckIsOldest<P>(events: seq<Event<P>>, id: Option<RequestId>, readyOnStatus: bool)
    requires !Names(id)
    ensures var s := Run(events, readyOnStatus);
            var next := Step(s, FromServer(AckFrame(id)), readyOnStatus);
            if s.desk.pendingSends == {} then next == s else exists oldest :: SettlesOldest(s.desk, next.desk, oldest)
  {
    var s := Run(events, readyOnStatus);
    BooksForever(events, readyOnStatus);
    HeadIsPending(s.desk);
    if s.desk.pendingSends == {} {
      TakeMeans(s.desk, id);
    } else {
      OldestIsTaken(s.desk, id);
      StepMovesDesk(s, FromServer(AckFrame(id)), readyOnStatus);
      var next := Step(s, FromServer(AckFrame(id)), readyOnStatus);
      assert SettlesOldest(s.desk, next.desk, s.desk.pendingSendOrder[0]);
    }
  }

  lemma HeadIsPending(d: Desk)
    requires Listed(d)
    ensures d.pendingSendOrder != [] ==> d.pendingSendOrder[0] in d.pendingSends
    ensures d.pendingSends == {} ==> d.pendingSendOrder == []
  {
  }

  lemma ErrorMeans(d: Desk, id: RequestId)
    requires Books(d) && id != Foreign("")
    ensures var next := ErrorDesk(d, Some(id));
            if id in d.pendingSends || id in d.pendingAsks
            then next.settled == d.settled + [Settlement(id, Rejected)]
            else next == RejectDesk(d)
  {
    TakeMeans(d, Some(id));
  }

  /** An error naming no open request is taken as the connection's own and settles everything pending. */
  lemma UnmatchedErrorRejectsAll<P>(events: seq<Event<P>>, id: RequestId, readyOnStatus: bool)
    requires id != Foreign("")
    ensures var d := Run(events, readyOnStatus).desk;
            var next := Step(Run(events, readyOnStatus), FromServer(ErrorFrame(Some(id))), readyOnStatus).desk;
            if id in d.pendingSends || id in d.pendingAsks
            then next.settled == d.settled + [Settlement(id, Rejected)]
            else next.pendingSends == {} && next.pendingAsks == []
                 && SettledIds(next.settled) == SettledIds(d.settled) + d.pendingSendOrder + d.pendingAsks
  {
    var s := Run(events, readyOnStatus);
    BooksForever(events, readyOnStatus);
    StepMovesDesk(s, FromServer(ErrorFrame(Some(id))), readyOnStatus);
    ErrorMeans(s.desk, id);
    RejectKeeps(s.desk);
  }
}
