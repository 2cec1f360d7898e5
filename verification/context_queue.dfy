/**
  The serialised entry of the context storage: each call chains on the tail promise it
  finds and leaves a new tail behind that settles once its own run has settled, either
  way. Any call whose predecessor's tail has settled may start, whenever it likes.
 */
module ContextQueue {
  import opened Prelude
  import opened ContextStorage

  /** A call waits for its tail, runs its callback, waits for the callback's promise, and settles. */
  datatype CallState = Waiting | Running(frame: nat) | Awaiting(frame: nat) | Settled(ok: bool)

  /** `after` is the tail the call was chained on, `tail` the one it put in its place. */
  datatype Call<T> = Call(context: T, after: nat, tail: nat, state: CallState)

  /**
    `tails` says of each tail promise whether it has settled; `tail` is the storage's own field.
    `started` and `refusals` record in what order calls ran and how many met the overlap error.
   */
  datatype Queue<T> = Queue(machine: Machine<T>, calls: seq<Call<T>>, tails: seq<bool>, tail: nat,
                            started: seq<nat>, refusals: nat)

  datatype QueueEvent<T> =
    | Ask(context: T)
    | StartCall(call: nat)
    | CallbackThrows(call: nat)
    | CallbackReturns(call: nat)
    | CallbackAwaits(call: nat)
    | PromiseSettles(call: nat, ok: bool)
    | TailSettles(call: nat)

  /** A call chained on the tail in the field, and the tail that takes its place there. */
  function Asked<T>(calls: seq<Call<T>>, tails: seq<bool>, tail: nat, context: T): (seq<Call<T>>, seq<bool>, nat) {
    (calls + [Call(context, tail, |tails|, Waiting)], tails + [false], |tails|)
  }

  function OnAsk<T>(q: Queue<T>, context: T): Queue<T> {
    var (calls, tails, tail) := Asked(q.calls, q.tails, q.tail, context);
    q.(calls := calls, tails := tails, tail := tail)
  }

  function InState<T>(q: Queue<T>, call: nat, state: CallState): Queue<T>
    requires call < |q.calls|
  {
    q.(calls := q.calls[call := q.calls[call].(state := state)])
  }

  /** The continuation of a settled tail, run with an empty call stack like every continuation. */
  predicate MayStart<T>(q: Queue<T>, call: nat) {
    && call < |q.calls| && q.calls[call].state == Waiting && q.machine.stack == []
    && q.calls[call].after < |q.tails| && q.tails[q.calls[call].after]
  }

  /** The callback that returns is the one on top of the call stack. */
  predicate OnTop<T>(q: Queue<T>, call: nat) {
    && call < |q.calls| && q.calls[call].state.Running?
    && q.machine.stack != [] && q.machine.stack[|q.machine.stack| - 1] == q.calls[call].state.frame
  }

  predicate MaySettle<T>(q: Queue<T>, call: nat) {
    && call < |q.calls| && q.calls[call].state.Awaiting? && q.machine.stack == []
    && q.calls[call].state.frame in q.machine.pending
  }

  function QueueStep<T>(q: Queue<T>, e: QueueEvent<T>): Queue<T> {
    match e
    case Ask(context) => OnAsk(q, context)
    case StartCall(call) =>
      if !MayStart(q, call) then q
      else if Overlaps(q.machine.storage, false) then InState(q, call, Settled(false)).(refusals := q.refusals + 1)
      else
        InState(q, call, Running(q.machine.storage.nextId))
        .(machine := Step(q.machine, Enter(q.calls[call].context, false)), started := q.started + [call])
    case CallbackThrows(call) =>
      if OnTop(q, call) then InState(q, call, Settled(false)).(machine := Step(q.machine, Throw)) else q
    case CallbackReturns(call) =>
      if OnTop(q, call) then InState(q, call, Settled(true)).(machine := Step(q.machine, ReturnValue)) else q
    case CallbackAwaits(call) =>
      if OnTop(q, call) then
        InState(q, call, Awaiting(q.calls[call].state.frame)).(machine := Step(q.machine, ReturnPromise))
      else q
    case PromiseSettles(call, ok) =>
      if MaySettle(q, call) then
        InState(q, call, Settled(ok)).(machine := Step(q.machine, Settle(q.calls[call].state.frame)))
      else q
    case TailSettles(call) =>
      if call < |q.calls| && q.calls[call].state.Settled? && q.calls[call].tail < |q.tails|
      then q.(tails := q.tails[q.calls[call].tail := true]) else q
  }

  /** The first tail is a resolved promise. */
  function FreshQueue<T>(): Queue<T> { Queue(Start(), [], [true], 0, [], 0) }

  function RunQueue<T>(events: seq<QueueEvent<T>>): Queue<T>
    decreases |events|
  {
    if events == [] then FreshQueue() else QueueStep(RunQueue(events[..|events| - 1]), events[|events| - 1])
  }

  // ---------------------------------------------------------------- the entry method

  /** The part of the storage behind `runAsync`: the tail field is replaced at every call. */
  class AsyncEntry<T> {
    var calls: seq<Call<T>>
    var tails: seq<bool>
    var topLevelAsyncTail: nat

    constructor ()
      ensures calls == [] && tails == [true] && topLevelAsyncTail == 0
    {
      calls, tails, topLevelAsyncTail := [], [true], 0;
    }

    method RunAsync(context: T) returns (call: nat)
      modifies this
      ensures call == old(|calls|)
      ensures (calls, tails, topLevelAsyncTail) == Asked(old(calls), old(tails), old(topLevelAsyncTail), context)
    {
      call := |calls|;
      var settledLater := |tails|;
      calls := calls + [Call(context, topLevelAsyncTail, settledLater, Waiting)];
      tails := tails + [false];
      topLevelAsyncTail := settledLater;
    }
  }

  // ---------------------------------------------------------------- the chain

  predicate IsLive(state: CallState) { state.Running? || state.Awaiting? }

  /** Calls and tails alternate along one chain, and the field holds its end. */
  ghost predicate Chained<T>(q: Queue<T>) {
    && |q.tails| == |q.calls| + 1 && q.tail == |q.calls|
    && (forall i :: 0 <= i < |q.calls| ==> q.calls[i].after == i && q.calls[i].tail == i + 1)
  }

  /** A tail settles after its call, and a call leaves its wait after the tail before it. */
  ghost predicate Sequenced<T>(q: Queue<T>)
    requires Chained(q)
  {
    && q.tails[0]
    && (forall i :: 0 <= i < |q.calls| && q.tails[i + 1] ==> q.calls[i].state.Settled?)
    && (forall i :: 0 <= i < |q.calls| && q.calls[i].state != Waiting ==> q.tails[i])
  }

  /** What the machine owes is owed to the live call. */
  ghost predicate Accounted<T>(q: Queue<T>) {
    && MachineInvariant(q.machine)
    && (forall i :: 0 <= i < |q.calls| && q.calls[i].state.Running? ==>
          q.machine.stack == [q.calls[i].state.frame] && q.machine.pending == {})
    && (forall i :: 0 <= i < |q.calls| && q.calls[i].state.Awaiting? ==>
          q.machine.stack == [] && q.machine.pending == {q.calls[i].state.frame})
    && ((forall i :: 0 <= i < |q.calls| ==> !IsLive(q.calls[i].state)) ==>
          q.machine.stack == [] && q.machine.pending == {})
  }

  /** The calls that have started are the first ones, in the order they were asked for. */
  ghost predicate StartedInOrder<T>(q: Queue<T>) {
    && |q.started| <= |q.calls|
    && (forall k :: 0 <= k < |q.started| ==> q.started[k] == k)
    && (forall i :: 0 <= i < |q.calls| ==> (q.calls[i].state != Waiting <==> i < |q.started|))
  }

  ghost predicate QueueInvariant<T>(q: Queue<T>) {
    Chained(q) && Sequenced(q) && Accounted(q) && StartedInOrder(q) && q.refusals == 0
  }

  /** Everything before a call that has left its wait has settled: the chain, followed back. */
  lemma {:induction false} PredecessorsSettled<T>(q: Queue<T>, i: nat, j: nat)
    requires Chained(q) && Sequenced(q) && j < i < |q.calls| && q.tails[i]
    ensures q.calls[j].state.Settled?
    decreases i
  {
    assert q.calls[i - 1].state.Settled?;
    if j < i - 1 {
      PredecessorsSettled(q, i - 1, j);
    }
  }

  /** The call whose tail has settled is the next one in line. */
  lemma NextInLine<T>(q: Queue<T>, call: nat)
    requires QueueInvariant(q) && MayStart(q, call)
    ensures call == |q.started|
    ensures forall i :: 0 <= i < |q.calls| ==> !IsLive(q.calls[i].state)
  {
    if |q.started| < call {
      PredecessorsSettled(q, call, |q.started|);
    }
    forall i | 0 <= i < |q.calls| ensures !IsLive(q.calls[i].state) {
      if i < call {
        PredecessorsSettled(q, call, i);
      }
    }
  }

  /** Of two calls the later one leaves its wait only after the earlier one has settled. */
  lemma OneLive<T>(q: Queue<T>, i: nat, j: nat)
    requires QueueInvariant(q) && i < j < |q.calls|
    ensures q.calls[j].state != Waiting ==> q.calls[i].state.Settled?
  {
    if q.calls[j].state != Waiting {
      PredecessorsSettled(q, j, i);
    }
  }

  lemma AskKeeps<T>(q: Queue<T>, context: T)
    requires QueueInvariant(q)
    ensures QueueInvariant(OnAsk(q, context))
  {
    var next := OnAsk(q, context);
    assert forall i :: 0 <= i < |q.calls| ==> next.calls[i] == q.calls[i];
  }

  /** Only the live call changes state, and no other call is live before or after. */
  lemma LiveCallMoves<T>(q: Queue<T>, call: nat, state: CallState, machine: Machine<T>)
    requires QueueInvariant(q) && call < |q.calls| && IsLive(q.calls[call].state) && MachineInvariant(machine)
    requires state.Awaiting? || state.Settled?
    requires state.Awaiting? ==> machine.stack == [] && machine.pending == {state.frame}
    requires state.Settled? ==> machine.stack == [] && machine.pending == {}
    ensures QueueInvariant(InState(q, call, state).(machine := machine))
  {
    forall i | 0 <= i < |q.calls| && i != call ensures !IsLive(q.calls[i].state) {
      if i < call {
        OneLive(q, i, call);
      } else {
        OneLive(q, call, i);
      }
    }
  }

  /** A call that starts when nothing is live finds no frame, and becomes the one live call. */
  lemma StartedMachine<T>(q: Queue<T>, call: nat)
    requires QueueInvariant(q) && call < |q.calls| && q.machine.stack == [] && q.machine.pending == {}
    ensures !Overlaps(q.machine.storage, false)
    ensures var next := Step(q.machine, Enter(q.calls[call].context, false));
            && MachineInvariant(next) && next.stack == [q.machine.storage.nextId] && next.pending == {}
            && next.storage.current == Some(q.calls[call].context)
  {
    NoneOwedNoFrames(q.machine);
    StepKeeps(q.machine, Enter(q.calls[call].context, false));
  }

  lemma StartedCall<T>(q: Queue<T>, call: nat, machine: Machine<T>, frame: nat)
    requires QueueInvariant(q) && MayStart(q, call) && call == |q.started|
    requires forall i :: 0 <= i < |q.calls| ==> !IsLive(q.calls[i].state)
    requires MachineInvariant(machine) && machine.stack == [frame] && machine.pending == {}
    ensures QueueInvariant(InState(q, call, Running(frame)).(machine := machine, started := q.started + [call]))
  {
    var next := InState(q, call, Running(frame)).(machine := machine, started := q.started + [call]);
    assert forall i :: 0 <= i < |q.calls| && i != call ==> next.calls[i] == q.calls[i];
  }

  lemma StartKeeps<T>(q: Queue<T>, call: nat)
    requires QueueInvariant(q) && MayStart(q, call)
    ensures !Overlaps(q.machine.storage, false)
    ensures QueueInvariant(QueueStep(q, StartCall(call)))
  {
    NextInLine(q, call);
    StartedMachine(q, call);
    StartedCall(q, call, Step(q.machine, Enter(q.calls[call].context, false)), q.machine.storage.nextId);
  }

  lemma LeaveMachine<T>(m: Machine<T>, frame: nat, e: Event<T>)
    requires MachineInvariant(m) && m.stack == [frame] && m.pending == {}
    requires e.ReturnValue? || e.Throw? || e.ReturnPromise?
    ensures var next := Step(m, e);
            MachineInvariant(next) && next.stack == [] && next.pending == (if e.ReturnPromise? then {frame} else {})
  {
    StepKeeps(m, e);
  }

  lemma CallbackKeeps<T>(q: Queue<T>, call: nat, e: Event<T>, state: CallState)
    requires QueueInvariant(q) && OnTop(q, call) && (e.ReturnValue? || e.Throw? || e.ReturnPromise?)
    requires if e.ReturnPromise? then state == Awaiting(q.calls[call].state.frame) else state.Settled?
    ensures QueueInvariant(InState(q, call, state).(machine := Step(q.machine, e)))
  {
    LeaveMachine(q.machine, q.calls[call].state.frame, e);
    LiveCallMoves(q, call, state, Step(q.machine, e));
  }

  lemma SettleCallKeeps<T>(q: Queue<T>, call: nat, ok: bool)
    requires QueueInvariant(q) && MaySettle(q, call)
    ensures QueueInvariant(QueueStep(q, PromiseSettles(call, ok)))
  {
    var frame := q.calls[call].state.frame;
    StepKeeps(q.machine, Settle(frame));
    LiveCallMoves(q, call, Settled(ok), Step(q.machine, Settle(frame)));
  }

  lemma CallbackStepKeeps<T>(q: Queue<T>, e: QueueEvent<T>)
    requires QueueInvariant(q) && (e.CallbackThrows? || e.CallbackReturns? || e.CallbackAwaits?) && OnTop(q, e.call)
    ensures QueueInvariant(QueueStep(q, e))
  {
    match e
    case CallbackThrows(call) => CallbackKeeps(q, call, Throw, Settled(false));
    case CallbackReturns(call) => CallbackKeeps(q, call, ReturnValue, Settled(true));
    case CallbackAwaits(call) => CallbackKeeps(q, call, ReturnPromise, Awaiting(q.calls[call].state.frame));
  }

  lemma TailKeeps<T>(q: Queue<T>, call: nat)
    requires QueueInvariant(q) && call < |q.calls| && q.calls[call].state.Settled?
    ensures QueueInvariant(QueueStep(q, TailSettles(call)))
  {
  }

  lemma QueueStepKeeps<T>(q: Queue<T>, e: QueueEvent<T>)
    requires QueueInvariant(q)
    ensures QueueInvariant(QueueStep(q, e))
  {
    match e
    case Ask(context) => AskKeeps(q, context);
    case StartCall(call) => if MayStart(q, call) { StartKeeps(q, call); }
    case PromiseSettles(call, ok) => if MaySettle(q, call) { SettleCallKeeps(q, call, ok); }
    case TailSettles(call) => if call < |q.calls| && q.calls[call].state.Settled? { TailKeeps(q, call); }
    case _ => if OnTop(q, e.call) { CallbackStepKeeps(q, e); }
  }

  lemma {:induction false} QueueForever<T>(events: seq<QueueEvent<T>>)
    ensures QueueInvariant(RunQueue(events))
    decreases |events|
  {
    if events != [] {
      QueueForever(events[..|events| - 1]);
      QueueStepKeeps(RunQueue(events[..|events| - 1]), events[|events| - 1]);
    }
  }

  /**
    With the serialised entry alone, in every interleaving of calls, callbacks, promises and tails: no two
    calls are live at once, calls start in the order they were asked for, at most one frame is live, and no
    call ever meets the overlap error.
   */
  lemma {:induction false} RunAsyncIsFifo<T>(events: seq<QueueEvent<T>>)
    ensures var q := RunQueue(events);
            && (forall i, j :: 0 <= i < j < |q.calls| ==> !(IsLive(q.calls[i].state) && IsLive(q.calls[j].state)))
            && (forall k :: 0 <= k < |q.started| ==> q.started[k] == k)
            && |q.machine.storage.frames| <= 1
            && q.refusals == 0
  {
    QueueForever(events);
    var q := RunQueue(events);
    forall i, j | 0 <= i < j < |q.calls| ensures !(IsLive(q.calls[i].state) && IsLive(q.calls[j].state)) {
      OneLive(q, i, j);
    }
    AtMostOneFrame(q);
  }

  lemma AtMostOneFrame<T>(q: Queue<T>)
    requires QueueInvariant(q)
    ensures |q.machine.storage.frames| <= 1
  {
    FirstFramesLive(q.machine.storage);
  }

  lemma NextCallStarts<T>(q: Queue<T>, call: nat)
    requires QueueInvariant(q) && call + 1 < |q.calls|
    requires q.calls[call].state.Settled? && q.calls[call + 1].state == Waiting
    ensures var next := QueueStep(QueueStep(q, TailSettles(call)), StartCall(call + 1));
            && |next.calls| == |q.calls|
            && next.calls[call + 1].state.Running? && next.started == q.started + [call + 1]
            && next.machine.storage.current == Some(next.calls[call + 1].context)
  {
    var settled := QueueStep(q, TailSettles(call));
    TailKeeps(q, call);
    FirstWaitingHasNoLive(settled, call + 1);
    StartedMachine(settled, call + 1);
  }

  /** Whether a call succeeded or failed, its tail settles and the next call starts, with its own context current. */
  lemma {:induction false} FailureDoesNotBlock<T>(events: seq<QueueEvent<T>>, call: nat)
    requires call + 1 < |RunQueue(events).calls|
    requires RunQueue(events).calls[call].state.Settled? && RunQueue(events).calls[call + 1].state == Waiting
    ensures var q := RunQueue(events + [TailSettles(call), StartCall(call + 1)]);
            && |q.calls| == |RunQueue(events).calls|
            && q.calls[call + 1].state.Running? && q.started == RunQueue(events).started + [call + 1]
            && q.machine.storage.current == Some(q.calls[call + 1].context)
  {
    QueueForever(events);
    NextCallStarts(RunQueue(events), call);
    var once, all := events + [TailSettles(call)], events + [TailSettles(call), StartCall(call + 1)];
    assert once[..|events|] == events && all[..|all| - 1] == once;
    assert RunQueue(once) == QueueStep(RunQueue(events), TailSettles(call));
  }

  /** When a call has settled and the next one waits, nothing is live. */
  lemma FirstWaitingHasNoLive<T>(q: Queue<T>, call: nat)
    requires QueueInvariant(q) && 0 < call < |q.calls|
    requires q.calls[call].state == Waiting && q.calls[call - 1].state.Settled?
    ensures q.machine.stack == [] && q.machine.pending == {}
  {
    forall i | 0 <= i < |q.calls| ensures !IsLive(q.calls[i].state) {
      if i < call - 1 {
        OneLive(q, i, call - 1);
      }
    }
  }
}
