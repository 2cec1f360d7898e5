/**
  What the protocol means for its users: which stores defeat it, what an open request
  blocks, what reconciliation restores, and when an acknowledged message is durable.
 */
module AgentRecovery {
  import opened Prelude
  import opened Text
  import opened CheckpointStore
  import opened AgentLoop
  import opened AgentProtocol

  lemma RunAppend(m: Machine, a: seq<Action>, b: seq<Action>)
    ensures Run(m, a + b) == Run(Run(m, a), b)
    decreases |b|
  {
    if b == [] {
      assert a + b == a;
    } else {
      assert (a + b)[..|a + b| - 1] == a + b[..|b| - 1];
      RunAppend(m, a, b[..|b| - 1]);
    }
  }

  lemma RunThree(m: Machine, a: Action, b: Action, c: Action)
    ensures Run(m, [a, b, c]) == Step(Step(Step(m, a), b), c)
  {
    assert [a, b, c][..2] == [a, b] && [a, b][..1] == [a] && [a][..0] == [];
    assert Run(m, [a]) == Step(m, a);
    assert Run(m, [a, b]) == Step(Step(m, a), b);
  }

  // ---------------------------------------------------------------- stores that defeat the protocol

  /** A time at which no deadline of the envelope has passed. */
  function Early(envelope: Checkpoint): (now: int)
    ensures Current(envelope, now)
  {
    var expiry := if envelope.expiresAt.Some? then envelope.expiresAt.value - 1 else 0;
    if envelope.staleAt.Some? then Min(expiry, envelope.staleAt.value - 1) else expiry
  }

  const ASK := StartAgent("", None)

  function DuplicateIntent(now: int): seq<Action> {
    [Deliver(ASK), ReadDone(ReadAt(now)), WriteDone(false, Confirmed)]
  }

  /** The store takes the intent for the envelope it holds, confirms it, and keeps nothing new. */
  lemma DuplicateIntentDispatches(m: Machine, now: int)
    requires m.pc.Idle? && m.store.Some? && Resumable(m.store.value) && Current(m.store.value, now)
    requires m.store.value.checkpointId ==
             CheckpointId(m.options.session, m.store.value.deterministic.state.steps + 1, INTENT)
    ensures var next := Run(m, DuplicateIntent(now));
            && next.options == m.options && next.store == m.store && next.pc.AwaitLlm?
            && next.log == m.log + [Dispatched(m.store.value.deterministic.state.steps + 1, next.pc.job.request)]
  {
    RunThree(m, Deliver(ASK), ReadDone(ReadAt(now)), WriteDone(false, Confirmed));
    ReadingDecides(m.store.value, now);
    var reading := Step(m, Deliver(ASK));
    var writing := Step(reading, ReadDone(ReadAt(now)));
    assert BootstrapCheckpoint(reading, ReadAt(now)) == Ready(m.store.value.deterministic.state);
    assert writing.pc.Writing? && writing.pc.stage.IntentStage?;
    assert !Lands(writing.store, writing.pc.envelope, false, Confirmed);
  }

  function TwiceUnreceipted(now: int): seq<Action> {
    DuplicateIntent(now) + [Crash(false)] + DuplicateIntent(now)
  }

  lemma DuplicateIntentTwice(m: Machine, now: int)
    requires m.pc.Idle? && m.store.Some? && Resumable(m.store.value) && Current(m.store.value, now)
    requires m.store.value.checkpointId ==
             CheckpointId(m.options.session, m.store.value.deterministic.state.steps + 1, INTENT)
    ensures EndsInTwoDispatches(Run(m, TwiceUnreceipted(now)).log)
  {
    var once := Run(m, DuplicateIntent(now));
    DuplicateIntentDispatches(m, now);
    var crashed := Step(once, Crash(false));
    RunAppend(m, DuplicateIntent(now), [Crash(false)]);
    CrashAlone(once);
    RunAppend(m, DuplicateIntent(now) + [Crash(false)], DuplicateIntent(now));
    DuplicateIntentDispatches(crashed, now);
  }

  lemma CrashAlone(m: Machine)
    ensures Run(m, [Crash(false)]) == Step(m, Crash(false))
  {
    assert [Crash(false)][..0] == [];
  }

  predicate EndsInTwoDispatches(log: seq<Entry>) {
    |log| >= 2 && log[|log| - 1].Dispatched? && log[|log| - 2].Dispatched?
  }

  lemma TwoDispatchesBreakBoth(session: string, log: seq<Entry>)
    requires EndsInTwoDispatches(log)
    ensures !WriteAhead(session, log) && !OncePerReceipt(session, log)
  {
    assert !RecordsIntent(session, log[|log| - 2], log[|log| - 1].step);
    NothingInBetween(session, log, |log| - 2, |log| - 1);
  }

  lemma NothingInBetween(session: string, log: seq<Entry>, i: nat, j: nat)
    requires i < j < |log| && log[i].Dispatched? && log[j].Dispatched? && j == i + 1
    ensures !OncePerReceipt(session, log)
  {
  }

  /** Reconciling an envelope whose name stops inside the session's prefix can forge the name of the next intent. */
  lemma ReconciliationForges(m: Machine, now: int) returns (actions: seq<Action>)
    requires m.pc.Idle? && m.store.Some? && Reconcilable(m.store.value) && Current(m.store.value, now)
    requires Suffixed(m.store.value.checkpointId) <= Prefix(m.options.session)
    ensures var next := Run(m, actions);
            && next.options == m.options && next.pc.Idle? && next.store.Some?
            && Resumable(next.store.value) && Current(next.store.value, now)
            && next.store.value.checkpointId ==
               CheckpointId(m.options.session, next.store.value.deterministic.state.steps + 1, INTENT)
  {
    var envelope := m.store.value;
    var receiptId := ReconciledMayBeIntent(m.options.session, envelope.checkpointId,
                                           envelope.deterministic.state.steps + 1);
    var message := ReconcileSession(receiptId, false, None);
    actions := [Deliver(message), ReadDone(ReadAt(now)), WriteDone(true, Confirmed)];
    RunThree(m, Deliver(message), ReadDone(ReadAt(now)), WriteDone(true, Confirmed));
    ReadingDecides(envelope, now);
  }

  lemma DishonestStoreBreaks(o: Options, store: Option<Checkpoint>) returns (actions: seq<Action>)
    requires !Honest(o.session, store)
    ensures EndsInTwoDispatches(Run(Boot(o, store), actions).log)
  {
    var m, now := Boot(o, store), Early(store.value);
    if Resumable(store.value) {
      actions := TwiceUnreceipted(now);
      DuplicateIntentTwice(m, now);
    } else {
      var forging := ReconciliationForges(m, now);
      DuplicateIntentTwice(Run(m, forging), now);
      RunAppend(m, forging, TwiceUnreceipted(now));
      actions := forging + TwiceUnreceipted(now);
    }
  }

  ghost predicate Guarded(session: string, log: seq<Entry>) { WriteAhead(session, log) && OncePerReceipt(session, log) }

  /** The condition on the first stored envelope is exact: without it some run sends a request twice unguarded. */
  lemma HonestStoreIsExact(o: Options, store: Option<Checkpoint>)
    ensures Honest(o.session, store) <==>
            forall actions: seq<Action> :: Guarded(o.session, Run(Boot(o, store), actions).log)
  {
    if Honest(o.session, store) {
      forall actions: seq<Action> ensures Guarded(o.session, Run(Boot(o, store), actions).log) {
        AtMostOnceAcrossCrashes(o, store, actions);
      }
    } else {
      var actions := DishonestStoreBreaks(o, store);
      TwoDispatchesBreakBoth(o.session, Run(Boot(o, store), actions).log);
      assert !Guarded(o.session, Run(Boot(o, store), actions).log);
    }
  }

  // ---------------------------------------------------------------- blocked and unblocked

  predicate Reconciles(action: Action) { action.Deliver? && action.message.ReconcileSession? }

  ghost predicate OnlyFailures(log: seq<Entry>) {
    forall i :: 0 <= i < |log| ==> log[i].Replied? && log[i].reply.Failure?
  }

  /** The store still owes a settlement, nothing was written, and the log grew by failing replies only. */
  ghost predicate StillOwed(m: Machine, next: Machine) {
    && next.store == m.store && m.store.Some? && MustReconcile(m.store.value)
    && (next.pc.Idle? || (next.pc.Reading? && !next.pc.message.ReconcileSession?))
    && m.log <= next.log && OnlyFailures(next.log[|m.log|..])
  }

  lemma FailureIsOwed(m: Machine, next: Machine, context: Context, error: AgentError)
    requires StillOwed(m, next)
    ensures StillOwed(m, Fail(next, context, error, []))
  {
    var failed := Fail(next, context, error, []);
    assert failed.log[|m.log|..] == next.log[|m.log|..] + [Replied(Failure(error))];
  }

  lemma OwedStep(m: Machine, next: Machine, action: Action)
    requires StillOwed(m, next) && !Reconciles(action)
    ensures StillOwed(m, Step(next, action))
  {
    if action.ReadDone? && next.pc.Reading? {
      if action.end.ReadAt? {
        ReadingDecides(next.store.value, action.end.now);
      }
      FailureIsOwed(m, next, next.memory, BootstrapCheckpoint(next, action.end).error);
    }
  }

  /**
    While a settlement is owed, nothing but a reconciliation moves the session: over any run of other
    messages, reads, crashes and restarts the store stays as it is, no request leaves, and every reply fails.
   */
  lemma {:induction false} OwedSettlementHolds(m: Machine, actions: seq<Action>)
    requires m.pc.Idle? && m.store.Some? && MustReconcile(m.store.value)
    requires forall a :: a in actions ==> !Reconciles(a)
    ensures StillOwed(m, Run(m, actions))
    decreases |actions|
  {
    if actions != [] {
      var k := |actions| - 1;
      OwedSettlementHolds(m, actions[..k]);
      assert !Reconciles(actions[k]);
      OwedStep(m, Run(m, actions[..k]), actions[k]);
    }
  }

  /** Every request that is out, or whose settlement was lost, puts the session in that state. */
  lemma OpenRequestOwes(o: Options, store: Option<Checkpoint>, actions: seq<Action>)
    requires Honest(o.session, store)
    ensures var m := Run(Boot(o, store), actions);
            OpenStep(o.session, m.log).Some? ==> m.store.Some? && MustReconcile(m.store.value)
  {
    InvariantForever(o, store, actions);
  }

  /** A reconciliation whose write lands settles the session, and the next turn resumes from the state it chose. */
  lemma ReconciliationUnblocks(m: Machine, message: Message, now: int, later: int)
    requires m.pc.Idle? && m.store.Some? && Reconcilable(m.store.value) && Current(m.store.value, now)
    requires message.ReconcileSession? && !Blank(message.receiptId)
    requires message.applied ==> message.checkpointState.Some? && message.checkpointState.value.StateJson?
    requires !Passed(m.store.value.expiresAt, later)
    ensures var next := Step(Step(Step(m, Deliver(message)), ReadDone(ReadAt(now))), WriteDone(false, Confirmed));
            var chosen := if message.applied then message.checkpointState.value.state
                          else m.store.value.deterministic.state;
            && next.pc.Idle? && next.memory == chosen
            && next.log == m.log + [Persisted(next.store.value),
                                    Replied(ReconciledReply(message.receiptId, message.applied))]
            && BootstrapCheckpoint(next, ReadAt(later)) == Ready(CheckpointState(chosen))
  {
    ReadingDecides(m.store.value, now);
    var writing := Step(Step(m, Deliver(message)), ReadDone(ReadAt(now)));
    assert writing.pc.Writing? && |m.store.value.checkpointId| < |writing.pc.envelope.checkpointId|;
    assert Lands(writing.store, writing.pc.envelope, false, Confirmed);
    ReadingDecides(writing.pc.envelope, later);
  }

  // ---------------------------------------------------------------- acknowledged and durable

  /** A tool result whose write the store took for a copy of the envelope it holds. */
  predicate TakenForDuplicate(m: Machine, landed: bool)
    requires m.pc.Writing?
  {
    m.pc.stage.ToolStage? && !landed && m.store.Some? && m.store.value.checkpointId == m.pc.envelope.checkpointId
  }

  predicate HoldsCheckpointOf(store: Option<Checkpoint>, context: Context) {
    store.Some? && store.value.deterministic == StateJson(CheckpointState(context))
  }

  /**
    An acknowledged message is durable, with its exact exception: in every run, when a confirmed write ends a
    turn, the store holds the checkpoint of the context the actor keeps if and only if the write was not a
    tool result taken for a duplicate. Then the store is as it was, and the acknowledged message is missing.
   */
  lemma {:induction false} AcknowledgedIsStored(o: Options, store: Option<Checkpoint>, actions: seq<Action>,
                                                landed: bool)
    requires Honest(o.session, store)
    ensures var m := Run(Boot(o, store), actions);
            var next := Step(m, WriteDone(landed, Confirmed));
            m.pc.Writing? && next.pc.Idle? ==>
              && (HoldsCheckpointOf(next.store, next.memory) <==> !TakenForDuplicate(m, landed))
              && (TakenForDuplicate(m, landed) ==> next.store == m.store)
  {
    InvariantForever(o, store, actions);
    var m := Run(Boot(o, store), actions);
    if m.pc.Writing? {
      ConfirmedKeeps(m, landed);
      if TakenForDuplicate(m, landed) {
        DuplicateIsMissing(m);
      }
    }
  }

  /** The context a tool result leads to is one message longer than the one in the store. */
  lemma DuplicateIsMissing(m: Machine)
    requires Invariant(m) && m.pc.Writing? && m.pc.stage.ToolStage? && m.store.Some?
    ensures !HoldsCheckpointOf(m.store, m.pc.stage.waiting)
  {
    var stage := m.pc.stage;
    assert |CheckpointState(stage.waiting).history| == |stage.active.history| + 1;
  }

  lemma ConfirmedKeeps(m: Machine, landed: bool)
    requires m.pc.Writing?
    ensures var next := Step(m, WriteDone(landed, Confirmed));
            && (next.pc.Idle? ==> next.memory == Kept(m.pc.stage))
            && next.store == if Lands(m.store, m.pc.envelope, landed, Confirmed) then Some(m.pc.envelope) else m.store
  {
  }

  /** The same tool result delivered again right after it was stored: acknowledged again, and not stored again. */
  lemma RepeatedResultStep(m: Machine, context: Context, message: Message, now: int)
    requires m.pc.Idle? && message.ObserveToolResult? && Without(context.pendingToolCalls, message.toolCallId) != []
    requires m.store == Some(ToolEnvelope(m.options.session, context, context.steps, message.toolCallId))
    ensures var next := Run(m, [Deliver(message), ReadDone(ReadAt(now)), WriteDone(false, Confirmed)]);
            && next.pc.Idle? && next.store == m.store
            && next.log == m.log + [Replied(Answered(WaitingForTool, NextMessage(message), [], None))]
            && next.memory.history == context.history + [NextMessage(message)]
  {
    var reading := Step(m, Deliver(message));
    RunThree(m, Deliver(message), ReadDone(ReadAt(now)), WriteDone(false, Confirmed));
    ReadingDecides(m.store.value, now);
    assert BootstrapCheckpoint(reading, ReadAt(now)) == Ready(CheckpointState(context));
    var writing := Step(reading, ReadDone(ReadAt(now)));
    assert writing.pc.Writing? && writing.pc.stage.ToolStage?;
    assert !Lands(writing.store, writing.pc.envelope, false, Confirmed);
  }

  // The run: a first turn in which the model asks for two tools, then the result of the first one, twice.

  const TWO_CALLS := [ToolCall("a", "tool", "{}"), ToolCall("b", "tool", "{}")]
  const ASKS_TWO := LlmMessage("assistant", "", None, None, Some(TWO_CALLS))
  const RESULT_A := ObserveToolResult("a", "tool", true, "1")

  function FirstTurn(): seq<Action> {
    [Deliver(ASK), ReadDone(ReadAt(0)), WriteDone(true, Confirmed)]
    + [LlmDone(LlmReturned(LlmOk(ASKS_TWO, None))), WriteDone(true, Confirmed)]
  }

  function Observed(landed: bool): seq<Action> {
    [Deliver(RESULT_A), ReadDone(ReadAt(0)), WriteDone(landed, Confirmed)]
  }

  /** After the first turn: the prompt and the model's answer, one step, two calls pending. */
  function AfterFirst(o: Options): Context {
    var c := InitialContext(o);
    Context(OrElse(c.system, o.system), c.history + [NextMessage(ASK), ASKS_TWO], c.steps + 1,
            c.pendingToolCalls + TWO_CALLS, None)
  }

  lemma RunTwo(m: Machine, a: Action, b: Action)
    ensures Run(m, [a, b]) == Step(Step(m, a), b)
  {
    assert [a, b][..1] == [a] && [a][..0] == [];
    assert Run(m, [a]) == Step(m, a);
  }

  lemma FirstTurnAsks(o: Options)
    ensures var m := Run(Boot(o, None), FirstTurn()[..3]);
            && m.pc.AwaitLlm? && m.options == o
            && m.pc.job.request.messages == InitialContext(o).history + [NextMessage(ASK)]
            && m.pc.job.request.system == OrElse(InitialContext(o).system, o.system)
            && m.pc.job.step == InitialContext(o).steps + 1
            && m.pc.job.executing.pendingToolCalls == InitialContext(o).pendingToolCalls
  {
    assert FirstTurn()[..3] == [Deliver(ASK), ReadDone(ReadAt(0)), WriteDone(true, Confirmed)];
    RunThree(Boot(o, None), Deliver(ASK), ReadDone(ReadAt(0)), WriteDone(true, Confirmed));
    var reading := Step(Boot(o, None), Deliver(ASK));
    assert BootstrapCheckpoint(reading, ReadAt(0)) == Ready(InitialContext(o));
  }

  lemma FirstTurnStores(o: Options)
    ensures var m := Run(Boot(o, None), FirstTurn());
            && m.pc.Idle? && m.options == o && m.store.Some? && Readable(m.store.value) && !MustReconcile(m.store.value)
            && Current(m.store.value, 0)
            && m.store.value.checkpointId == CheckpointId(o.session, AfterFirst(o).steps, RECEIPT)
            && m.store.value.deterministic == StateJson(AfterFirst(o))
  {
    var answer := LlmReturned(LlmOk(ASKS_TWO, None));
    var asked := Run(Boot(o, None), FirstTurn()[..3]);
    FirstTurnAsks(o);
    assert FirstTurn() == FirstTurn()[..3] + [LlmDone(answer), WriteDone(true, Confirmed)];
    RunAppend(Boot(o, None), FirstTurn()[..3], [LlmDone(answer), WriteDone(true, Confirmed)]);
    RunTwo(asked, LlmDone(answer), WriteDone(true, Confirmed));
    assert AgentLoop.Settled(asked.pc.job, answer.result).0 == AfterFirst(o);
  }

  lemma PendingRemains(o: Options)
    ensures Without(AfterFirst(o).pendingToolCalls, "a") != []
    ensures Without(Without(AfterFirst(o).pendingToolCalls, "a"), "a") != []
  {
    KeepsOther(AfterFirst(o).pendingToolCalls, TWO_CALLS[1], "a");
    assert AfterFirst(o).pendingToolCalls[|InitialContext(o).pendingToolCalls| + 1] == TWO_CALLS[1];
    KeepsOther(Without(AfterFirst(o).pendingToolCalls, "a"), TWO_CALLS[1], "a");
  }

  lemma {:induction false} KeepsOther(calls: seq<ToolCall>, call: ToolCall, id: string)
    requires call.id != id
    ensures call in calls ==> call in Without(calls, id)
  {
    if calls != [] {
      KeepsOther(calls[1..], call, id);
    }
  }

  /** The context after the first delivery of the result. */
  function AfterResult(o: Options): Context {
    var c := AfterFirst(o);
    c.(system := OrElse(c.system, o.system), history := c.history + [NextMessage(RESULT_A)],
       pendingToolCalls := Without(c.pendingToolCalls, "a"))
  }

  lemma ResultIsStored(o: Options)
    ensures var m, before := Run(Run(Boot(o, None), FirstTurn()), Observed(true)), Run(Boot(o, None), FirstTurn());
            && m.pc.Idle? && m.options == o
            && m.store == Some(ToolEnvelope(o.session, AfterResult(o), AfterResult(o).steps, "a"))
            && m.log == before.log + [Persisted(m.store.value),
                                      Replied(Answered(WaitingForTool, NextMessage(RESULT_A), [], None))]
  {
    var m := Run(Boot(o, None), FirstTurn());
    FirstTurnStores(o);
    PendingRemains(o);
    RunThree(m, Deliver(RESULT_A), ReadDone(ReadAt(0)), WriteDone(true, Confirmed));
    ReadingDecides(m.store.value, 0);
    var reading := Step(m, Deliver(RESULT_A));
    assert BootstrapCheckpoint(reading, ReadAt(0)) == Ready(AfterFirst(o));
  }

  /**
    A run from any fresh agent that loses an acknowledged message: the model asks for two tools, the result
    of the first arrives twice, both deliveries are acknowledged, and the store keeps the message once while
    the actor keeps it twice.
   */
  lemma {:induction false} RepeatedResultIsDropped(o: Options)
    ensures var once := Run(Boot(o, None), FirstTurn() + Observed(true));
            var twice := Run(Boot(o, None), FirstTurn() + Observed(true) + Observed(false));
            && twice.pc.Idle? && twice.store == once.store
            && HoldsCheckpointOf(twice.store, AfterResult(o))
            && twice.log == once.log + [Replied(Answered(WaitingForTool, NextMessage(RESULT_A), [], None))]
            && |once.log| > 0
            && once.log[|once.log| - 1] == Replied(Answered(WaitingForTool, NextMessage(RESULT_A), [], None))
            && twice.memory.history == AfterResult(o).history + [NextMessage(RESULT_A)]
  {
    var first := Run(Boot(o, None), FirstTurn());
    RunAppend(Boot(o, None), FirstTurn(), Observed(true));
    RunAppend(Boot(o, None), FirstTurn() + Observed(true), Observed(false));
    ResultIsStored(o);
    PendingRemains(o);
    RepeatedResultStep(Run(first, Observed(true)), AfterResult(o), RESULT_A, 0);
  }
}
