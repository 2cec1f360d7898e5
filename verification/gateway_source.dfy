/**
  The gateway-backed source: the client end of a sequenced stream with gap
  detection and resync, and the bookkeeping of commands awaiting an answer.
 */
module GatewaySource {
  import opened Prelude

  /** Request ids as the source builds them; any other text a server may send is foreign. */
  datatype RequestId = SendId(number: nat) | AskId(number: nat) | Foreign(text: string)

  datatype StatusState = Replaying | Connected | Local | Degraded | Disconnected

  /** What a sequenced frame carries. */
  datatype Body<P> = Snapshot(projection: P) | EventBody(projection: P) | Transition

  datatype Frame<P> =
    | ReadyFrame
    | StreamFrame(sequence: int, body: Body<P>)
    | StatusFrame(state: StatusState)
    | AckFrame(id: Option<RequestId>)
    | ReplyFrame(replyTo: RequestId)
    | ErrorFrame(id: Option<RequestId>)
    | PongFrame
    | Unparsable

  datatype Outcome = Resolved | Rejected

  datatype Settlement = Settlement(id: RequestId, outcome: Outcome)

  datatype Readiness = Waiting | IsReady | NeverReady

  datatype ClientFrame =
    | Hello
    | Subscribe
    | Resync(fromSequence: int)
    | SendCommand(id: RequestId)
    | AskCommand(id: RequestId)

  /** The bookkeeping of requests: the counter, what awaits an answer, and what was answered. */
  datatype Desk = Desk(requestSequence: nat, pendingSends: set<RequestId>, pendingSendOrder: seq<RequestId>,
                       pendingAsks: seq<RequestId>, settled: seq<Settlement>, issued: seq<RequestId>)

  datatype Source<P> = Source(
    lastSequence: int, resyncInProgress: bool, snapshot: Option<P>, status: StatusState, ready: Readiness,
    desk: Desk, sent: seq<ClientFrame>, accepted: seq<int>)

  const EMPTY_DESK := Desk(0, {}, [], [], [], [])

  function InitialSource<P>(): Source<P> {
    Source(0, false, None, Replaying, Waiting, EMPTY_DESK, [], [])
  }

  // ---------------------------------------------------------------- the stream

  function AcceptSequence<P>(s: Source<P>, frame: Frame<P>): (Source<P>, bool)
    requires frame.StreamFrame?
  {
    var expected := s.lastSequence + 1;
    if frame.sequence == expected then
      (s.(lastSequence := frame.sequence, accepted := s.accepted + [frame.sequence]), true)
    else if frame.sequence <= s.lastSequence then (s, false)
    else if s.resyncInProgress && frame.body.Snapshot? then
      (s.(lastSequence := frame.sequence, resyncInProgress := false, accepted := s.accepted + [frame.sequence]), true)
    else (s.(resyncInProgress := true, status := Degraded, sent := s.sent + [Resync(expected)]), false)
  }

  function BecomeReady<P>(s: Source<P>): Source<P> {
    if s.ready == Waiting then s.(ready := IsReady) else s
  }

  // ---------------------------------------------------------------- commands

  function Rejections(ids: seq<RequestId>, among: set<RequestId>): seq<Settlement> {
    if ids == [] then []
    else (if ids[0] in among then [Settlement(ids[0], Rejected)] else []) + Rejections(ids[1..], among - {ids[0]})
  }

  function AllRejected(ids: seq<RequestId>): seq<Settlement> {
    if ids == [] then [] else AllRejected(ids[..|ids| - 1]) + [Settlement(ids[|ids| - 1], Rejected)]
  }

  function RejectDesk(d: Desk): Desk {
    d.(settled := d.settled + Rejections(d.pendingSendOrder, d.pendingSends) + AllRejected(d.pendingAsks),
       pendingSends := d.pendingSends - (set id | id in d.pendingSendOrder),
       pendingSendOrder := [], pendingAsks := [])
  }

  function RejectPending<P>(s: Source<P>): Source<P> {
    s.(ready := if s.ready == Waiting then NeverReady else s.ready, desk := RejectDesk(s.desk))
  }

  function RemoveFirst(ids: seq<RequestId>, id: RequestId): seq<RequestId> {
    if ids == [] then [] else if ids[0] == id then ids[1..] else [ids[0]] + RemoveFirst(ids[1..], id)
  }

  /** The source's truthiness test on an optional id: missing and empty ids name nothing. */
  predicate Names(id: Option<RequestId>) { id.Some? && id.value != Foreign("") }

  function SkipSettled(ids: seq<RequestId>, pending: set<RequestId>): seq<RequestId> {
    if ids == [] || ids[0] in pending then ids else SkipSettled(ids[1..], pending)
  }

  /** The pending send an answer settles: the one it names, or the oldest when it names none. */
  function TakePendingSend(d: Desk, id: Option<RequestId>): (Desk, Option<RequestId>) {
    if Names(id) then
      if id.value in d.pendingSends then
        (d.(pendingSends := d.pendingSends - {id.value},
            pendingSendOrder := RemoveFirst(d.pendingSendOrder, id.value)), id)
      else (d, None)
    else
      var rest := SkipSettled(d.pendingSendOrder, d.pendingSends);
      if rest == [] then (d.(pendingSendOrder := []), None)
      else (d.(pendingSends := d.pendingSends - {rest[0]}, pendingSendOrder := rest[1..]), Some(rest[0]))
  }

  function Settle(d: Desk, id: RequestId, outcome: Outcome): Desk {
    d.(settled := d.settled + [Settlement(id, outcome)])
  }

  function SettleSend(d: Desk, id: Option<RequestId>, outcome: Outcome): Desk {
    var (taken, send) := TakePendingSend(d, id);
    if send.Some? then Settle(taken, send.value, outcome) else taken
  }

  function SettleAsk(d: Desk, id: RequestId, outcome: Outcome): Desk {
    Settle(d.(pendingAsks := RemoveFirst(d.pendingAsks, id)), id, outcome)
  }

  /** Whether an error answers an open request; if not, it is the connection's own. */
  predicate AnswersRequest(d: Desk, id: Option<RequestId>) {
    (Names(id) && id.value in d.pendingAsks) || TakePendingSend(d, id).1.Some?
  }

  function ErrorDesk(d: Desk, id: Option<RequestId>): Desk {
    if Names(id) && id.value in d.pendingAsks then SettleAsk(d, id.value, Rejected)
    else if TakePendingSend(d, id).1.Some? then SettleSend(d, id, Rejected)
    else RejectDesk(TakePendingSend(d, id).0)
  }

  function OnError<P>(s: Source<P>, id: Option<RequestId>): Source<P> {
    var answered := s.(desk := ErrorDesk(s.desk, id));
    if AnswersRequest(s.desk, id) then answered
    else answered.(ready := if s.ready == Waiting then NeverReady else s.ready, status := Degraded)
  }

  function OnFrame<P>(s: Source<P>, frame: Frame<P>, readyOnStatus: bool): Source<P> {
    match frame
    case ReadyFrame => s.(status := Replaying, sent := s.sent + [Subscribe])
    case StreamFrame(_, body) =>
      var (next, taken) := AcceptSequence(s, frame);
      if taken && body.Snapshot? then BecomeReady(next.(snapshot := Some(body.projection))) else next
    case StatusFrame(state) =>
      var next := s.(resyncInProgress := s.resyncInProgress && state == Replaying,
                     status := if state == Local then Connected else state);
      if readyOnStatus then BecomeReady(next) else next
    case AckFrame(id) => s.(desk := SettleSend(s.desk, id, Resolved))
    case ReplyFrame(id) => if id in s.desk.pendingAsks then s.(desk := SettleAsk(s.desk, id, Resolved)) else s
    case ErrorFrame(id) => OnError(s, id)
    case PongFrame => s
    case Unparsable => s.(status := Degraded)
  }

  /** A new request, recorded as pending before it is handed to the socket. */
  function Recorded(d: Desk, id: RequestId): Desk {
    var asked := d.(requestSequence := d.requestSequence + 1, issued := d.issued + [id]);
    if id.SendId? then asked.(pendingSends := d.pendingSends + {id}, pendingSendOrder := d.pendingSendOrder + [id])
    else asked.(pendingAsks := d.pendingAsks + [id])
  }

  /** A request handed to the socket, which settles it at once if it throws. */
  function IssueDesk(d: Desk, id: RequestId, socketThrows: bool): Desk {
    var asked := Recorded(d, id);
    if !socketThrows then asked
    else if id.SendId? then Settle(TakePendingSend(asked, Some(id)).0, id, Rejected)
    else SettleAsk(asked, id, Rejected)
  }

  /** A request past its wait for readiness. */
  function Issue<P>(s: Source<P>, id: RequestId, socketThrows: bool): Source<P> {
    s.(desk := IssueDesk(s.desk, id, socketThrows),
       sent := if socketThrows then s.sent else s.sent + [if id.SendId? then SendCommand(id) else AskCommand(id)])
  }

  datatype Event<P> =
    | FromServer(frame: Frame<P>)
    | SocketClosed
    | SocketFailed
    | AuthFailed
    | Send(socketThrows: bool)
    | Ask(socketThrows: bool)
    | CloseSource

  function Step<P>(s: Source<P>, e: Event<P>, readyOnStatus: bool): Source<P> {
    match e
    case FromServer(frame) => OnFrame(s, frame, readyOnStatus)
    case SocketClosed => RejectPending(s).(status := Disconnected)
    case SocketFailed => RejectPending(s).(status := Degraded)
    case AuthFailed => RejectPending(s).(status := Degraded)
    case Send(throws) => if s.ready == IsReady then Issue(s, SendId(s.desk.requestSequence + 1), throws) else s
    case Ask(throws) => if s.ready == IsReady then Issue(s, AskId(s.desk.requestSequence + 1), throws) else s
    case CloseSource => RejectPending(s)
  }

  function Run<P>(events: seq<Event<P>>, readyOnStatus: bool): Source<P>
    decreases |events|
  {
    if events == [] then InitialSource()
    else Step(Run(events[..|events| - 1], readyOnStatus), events[|events| - 1], readyOnStatus)
  }

  // ---------------------------------------------------------------- the source object

  class GatewayBackedSource<P> {
    const readyOnStatus: bool
    var lastSequence: int
    var resyncInProgress: bool
    var snapshot: Option<P>
    var status: StatusState
    var ready: Readiness
    var requestSequence: nat
    var pendingSends: set<RequestId>
    var pendingSendOrder: seq<RequestId>
    var pendingAsks: seq<RequestId>
    var settled: seq<Settlement>
    var sent: seq<ClientFrame>
    ghost var issued: seq<RequestId>
    ghost var accepted: seq<int>

    ghost function View(): Source<P>
      reads this
    {
      Source(lastSequence, resyncInProgress, snapshot, status, ready, DeskView(), sent, accepted)
    }

    ghost function DeskView(): Desk
      reads this
    {
      Desk(requestSequence, pendingSends, pendingSendOrder, pendingAsks, settled, issued)
    }

    constructor (readyOnStatus: bool)
      ensures this.readyOnStatus == readyOnStatus && View() == InitialSource()
    {
      this.readyOnStatus := readyOnStatus;
      lastSequence, resyncInProgress, snapshot, status, ready := 0, false, None, Replaying, Waiting;
      requestSequence, pendingSends, pendingSendOrder, pendingAsks := 0, {}, [], [];
      settled, sent, issued, accepted := [], [], [], [];
    }

    method Accept(frame: Frame<P>) returns (taken: bool)
      requires frame.StreamFrame?
      modifies this
      ensures (View(), taken) == AcceptSequence(old(View()), frame)
    {
      var expected := lastSequence + 1;
      if frame.sequence == expected {
        lastSequence := frame.sequence;
        accepted := accepted + [frame.sequence];
        return true;
      }
      if frame.sequence <= lastSequence {
        return false;
      }
      if resyncInProgress && frame.body.Snapshot? {
        lastSequence := frame.sequence;
        resyncInProgress := false;
        accepted := accepted + [frame.sequence];
        return true;
      }
      resyncInProgress := true;
      status := Degraded;
      sent := sent + [Resync(expected)];
      return false;
    }

    /** The splice of the send order: every pending send is rejected, oldest first. */
    method RejectSends()
      modifies this
      ensures View() == old(View()).(desk := old(DeskView()).(
                settled := old(settled) + Rejections(old(pendingSendOrder), old(pendingSends)),
                pendingSends := old(pendingSends) - (set id | id in old(pendingSendOrder)),
                pendingSendOrder := []))
    {
      var order := pendingSendOrder;
      pendingSendOrder := [];
      ghost var before := View();
      for i := 0 to |order|
        invariant View() == before.(desk := before.desk.(settled := settled, pendingSends := pendingSends))
        invariant pendingSends == before.desk.pendingSends - (set id | id in order[..i])
        invariant settled + Rejections(order[i..], pendingSends) ==
                  before.desk.settled + Rejections(order, before.desk.pendingSends)
      {
        assert order[i..][1..] == order[i + 1..] && order[..i + 1] == order[..i] + [order[i]];
        SplitRejections(settled, order[i..], pendingSends);
        if order[i] in pendingSends {
          settled := settled + [Settlement(order[i], Rejected)];
        }
        pendingSends := pendingSends - {order[i]};
      }
      assert order[..|order|] == order && settled + [] == settled;
    }

    method RejectAsks()
      modifies this
      ensures View() == old(View()).(desk := old(DeskView()).(
                settled := old(settled) + AllRejected(old(pendingAsks)), pendingAsks := []))
    {
      ghost var before := View();
      for i := 0 to |pendingAsks|
        invariant View() == before.(desk := before.desk.(settled := settled))
        invariant settled == before.desk.settled + AllRejected(before.desk.pendingAsks[..i])
      {
        assert pendingAsks[..i + 1][..i] == pendingAsks[..i];
        settled := settled + [Settlement(pendingAsks[i], Rejected)];
      }
      assert pendingAsks[..|pendingAsks|] == pendingAsks;
      pendingAsks := [];
    }

    method RejectAllPending()
      modifies this
      ensures View() == RejectPending(old(View()))
    {
      if ready == Waiting {
        ready := NeverReady;
      }
      RejectSends();
      RejectAsks();
    }

    method TakeSend(id: Option<RequestId>) returns (taken: Option<RequestId>)
      modifies this
      ensures View() == old(View()).(desk := DeskView())
      ensures (DeskView(), taken) == TakePendingSend(old(DeskView()), id)
    {
      if Names(id) {
        if id.value !in pendingSends {
          return None;
        }
        pendingSends := pendingSends - {id.value};
        pendingSendOrder := RemoveFirst(pendingSendOrder, id.value);
        return id;
      }
      while |pendingSendOrder| > 0
        invariant View() == old(View()).(desk := DeskView())
        invariant DeskView() == old(DeskView()).(pendingSendOrder := pendingSendOrder)
        invariant SkipSettled(pendingSendOrder, pendingSends) == SkipSettled(old(pendingSendOrder), pendingSends)
      {
        var next := pendingSendOrder[0];
        pendingSendOrder := pendingSendOrder[1..];
        if next in pendingSends {
          pendingSends := pendingSends - {next};
          return Some(next);
        }
      }
      return None;
    }

    method HandleError(id: Option<RequestId>)
      modifies this
      ensures View() == OnError(old(View()), id)
    {
      if Names(id) && id.value in pendingAsks {
        pendingAsks := RemoveFirst(pendingAsks, id.value);
        settled := settled + [Settlement(id.value, Rejected)];
        return;
      }
      var send := TakeSend(id);
      if send.Some? {
        settled := settled + [Settlement(send.value, Rejected)];
        return;
      }
      RejectAllPending();
      status := Degraded;
    }

    method HandleStream(frame: Frame<P>)
      requires frame.StreamFrame?
      modifies this
      ensures View() == OnFrame(old(View()), frame, readyOnStatus)
    {
      var taken := Accept(frame);
      if taken && frame.body.Snapshot? {
        snapshot := Some(frame.body.projection);
        if ready == Waiting { ready := IsReady; }
      }
    }

    method HandleFrame(frame: Frame<P>)
      modifies this
      ensures View() == Step(old(View()), FromServer(frame), readyOnStatus)
    {
      match frame
      case ReadyFrame =>
        status := Replaying;
        sent := sent + [Subscribe];
      case StreamFrame(_, _) => HandleStream(frame);
      case StatusFrame(state) =>
        if state != Replaying { resyncInProgress := false; }
        status := if state == Local then Connected else state;
        if readyOnStatus && ready == Waiting { ready := IsReady; }
      case AckFrame(id) =>
        var send := TakeSend(id);
        if send.Some? { settled := settled + [Settlement(send.value, Resolved)]; }
      case ReplyFrame(id) =>
        if id in pendingAsks {
          pendingAsks := RemoveFirst(pendingAsks, id);
          settled := settled + [Settlement(id, Resolved)];
        }
      case ErrorFrame(id) => HandleError(id);
      case PongFrame =>
      case Unparsable => status := Degraded;
    }

    /** A new request enters the books before it is handed to the socket. */
    method Record(id: RequestId)
      modifies this
      ensures View() == old(View()).(desk := Recorded(old(DeskView()), id))
    {
      requestSequence := requestSequence + 1;
      issued := issued + [id];
      if id.SendId? {
        pendingSends := pendingSends + {id};
        pendingSendOrder := pendingSendOrder + [id];
      } else {
        pendingAsks := pendingAsks + [id];
      }
    }

    method SendMessage(socketThrows: bool) returns (id: Option<RequestId>)
      modifies this
      ensures View() == Step(old(View()), Event<P>.Send(socketThrows), readyOnStatus)
      ensures id == if old(ready) == IsReady then Some(SendId(old(requestSequence) + 1)) else None
    {
      if ready != IsReady { return None; }
      id := Some(SendId(requestSequence + 1));
      Record(id.value);
      if socketThrows {
        var _ := TakeSend(id);
        settled := settled + [Settlement(id.value, Rejected)];
      } else {
        sent := sent + [SendCommand(id.value)];
      }
    }

    method AskMessage(socketThrows: bool) returns (id: Option<RequestId>)
      modifies this
      ensures View() == Step(old(View()), Event<P>.Ask(socketThrows), readyOnStatus)
      ensures id == if old(ready) == IsReady then Some(AskId(old(requestSequence) + 1)) else None
    {
      if ready != IsReady { return None; }
      id := Some(AskId(requestSequence + 1));
      Record(id.value);
      if socketThrows {
        pendingAsks := RemoveFirst(pendingAsks, id.value);
        settled := settled + [Settlement(id.value, Rejected)];
      } else {
        sent := sent + [AskCommand(id.value)];
      }
    }

    method HandleClose()
      modifies this
      ensures View() == Step(old(View()), SocketClosed, readyOnStatus)
    {
      RejectAllPending();
      status := Disconnected;
    }

    method Close()
      modifies this
      ensures View() == Step(old(View()), CloseSource, readyOnStatus)
    {
      RejectAllPending();
    }
  }

  lemma SplitRejections(settled: seq<Settlement>, ids: seq<RequestId>, among: set<RequestId>)
    requires ids != []
    ensures settled + Rejections(ids, among) ==
            (if ids[0] in among then settled + [Settlement(ids[0], Rejected)] else settled)
            + Rejections(ids[1..], among - {ids[0]})
  {
  }
}
