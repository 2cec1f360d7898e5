/**
  The message handler as the actor runs it: awaits in order, one `dispatched` flag,
  and a mark written when the model's call throws. Each method is tied to the step
  machine whose runs the protocol theorems speak of.
 */
module AgentActor {
  import opened Prelude
  import opened Text
  import opened CheckpointStore
  import opened AgentLoop

  /** How the environment answers one write. */
  datatype WriteEnd = WriteEnd(landed: bool, report: Report)

  /** How the environment answers the awaits of one message, in the order they can occur. */
  datatype Script = Script(read: ReadEnd, first: WriteEnd, llm: LlmOutcome, second: WriteEnd)

  function WriteAction(end: WriteEnd): Action { WriteDone(end.landed, end.report) }

  function Turn(message: Message, script: Script): seq<Action> {
    [Deliver(message), ReadDone(script.read), WriteAction(script.first), LlmDone(script.llm),
     WriteAction(script.second)]
  }

  function StartedTurn(m: Machine, message: Message, script: Script): Machine {
    Step(Step(m, Deliver(message)), ReadDone(script.read))
  }

  function EndedTurn(started: Machine, script: Script): Machine {
    Step(Step(Step(started, WriteAction(script.first)), LlmDone(script.llm)), WriteAction(script.second))
  }

  lemma RunOneMore(m: Machine, actions: seq<Action>, n: nat)
    requires n < |actions|
    ensures Run(m, actions[..n + 1]) == Step(Run(m, actions[..n]), actions[n])
  {
    assert actions[..n + 1][..n] == actions[..n];
  }

  lemma TurnUnrolls(m: Machine, message: Message, script: Script)
    ensures Run(m, Turn(message, script)) == EndedTurn(StartedTurn(m, message, script), script)
  {
    var t := Turn(message, script);
    RunOneMore(m, t, 0);
    RunOneMore(m, t, 1);
    RunOneMore(m, t, 2);
    RunOneMore(m, t, 3);
    RunOneMore(m, t, 4);
    assert t[..0] == [] && t[..5] == t;
  }

  /** What is left of a turn that has ended is skipped. */
  lemma EndedTurnStays(m: Machine, script: Script)
    requires m.pc.Idle?
    ensures EndedTurn(m, script) == m
    ensures Step(Step(m, LlmDone(script.llm)), WriteAction(script.second)) == m
  {
  }

  class AgentActor {
    const options: Options
    var memory: Context
    var store: Option<Checkpoint>
    var emitted: seq<AgentEvent>
    ghost var log: seq<Entry>

    /** The actor between two messages. */
    ghost function View(): Machine
      reads this
    {
      At(Idle)
    }

    ghost function At(pc: Pc): Machine
      reads this
    {
      Machine(options, memory, store, pc, log, emitted)
    }

    constructor (options: Options, store: Option<Checkpoint>)
      ensures this.options == options && View() == Boot(options, store)
    {
      this.options, this.store := options, store;
      memory, emitted, log := InitialContext(options), [], [];
    }

    /** One awaited write; the answer is what the store reported. */
    method WriteCheckpoint(envelope: Checkpoint, end: WriteEnd) returns (report: Report)
      modifies this
      ensures report == end.report
      ensures View() == Land(old(View()), envelope, Lands(old(store), envelope, end.landed, end.report))
    {
      report := end.report;
      if Lands(store, envelope, end.landed, end.report) {
        store := Some(envelope);
        log := log + [Persisted(envelope)];
      }
    }

    method Reply(context: Context, reply: AgentLoop.Reply, events: seq<AgentEvent>)
      modifies this
      ensures View() == Finish(old(View()), context, reply, events)
    {
      memory := context;
      emitted := emitted + events;
      log := log + [Replied(reply)];
    }

    method ReplyFailure(context: Context, error: AgentError, prefix: seq<AgentEvent>)
      modifies this
      ensures View() == Fail(old(View()), context, error, prefix)
    {
      Reply(context.(lastError := Some(error)), Failure(error), prefix + [StepFailed(context.steps, error)]);
    }

    /** Records a tool result while others are still awaited. */
    method NoteToolResult(envelope: Checkpoint, stage: Stage, end: WriteEnd)
      requires stage.ToolStage?
      modifies this
      ensures View() == Step(old(At(Writing(envelope, stage))), WriteAction(end))
    {
      var report := WriteCheckpoint(envelope, end);
      if report.Confirmed? {
        Reply(stage.waiting, Answered(WaitingForTool, stage.message, [], None), stage.observed);
      } else {
        ReplyFailure(stage.active, Durability(report), stage.observed);
      }
    }

    /** The model answered: record the receipt, then reply. */
    method RecordReceipt(job: Job, result: LlmResult, end: WriteEnd)
      modifies this
      ensures View() == Step(Step(old(At(AwaitLlm(job))), LlmDone(LlmReturned(result))), WriteAction(end))
    {
      if result.LlmOk? {
        var (context, reply, events) := Settled(job, result);
        var report := WriteCheckpoint(ReceiptEnvelope(options.session, context, job.step, SanitizedReceipt(result)),
                                      end);
        if report.Confirmed? {
          Reply(context, reply, events);
        } else {
          ReplyFailure(context, Durability(report), events);
        }
      } else {
        var failed := job.executing.(lastError := Some(result.error));
        var report := WriteCheckpoint(ReceiptEnvelope(options.session, failed, job.step, SanitizedReceipt(result)),
                                      end);
        ReplyFailure(job.executing,
                     if report.Confirmed? then result.error else ComposeFailure(result.error, Durability(report)),
                     job.observed);
      }
    }

    /** The guarded region of a turn: intent, model, receipt; a throw after the request left writes the mark. */
    method AskModel(job: Job, script: Script)
      modifies this
      ensures var intent := IntentEnvelope(options.session, job.executing, job.step);
              View() == EndedTurn(old(At(Writing(intent, IntentStage(job)))), script)
    {
      var dispatched := false;
      var error: Option<AgentError> := None;
      ghost var writing := At(Writing(IntentEnvelope(options.session, job.executing, job.step), IntentStage(job)));
      ghost var written := Step(writing, WriteAction(script.first));
      var report := WriteCheckpoint(IntentEnvelope(options.session, job.executing, job.step), script.first);
      if report.Confirmed? {
        dispatched := true;
        log := log + [Dispatched(job.step, job.request)];
        assert At(AwaitLlm(job)) == written;
        match script.llm {
          case LlmReturned(result) =>
            RecordReceipt(job, result, script.second);
            return;
          case LlmThrew(thrown) => error := Some(Normalize(thrown));
        }
      } else {
        error := Some(Durability(report));
      }
      if dispatched {
        var failed := job.executing.(lastError := error);
        var marked := WriteCheckpoint(MarkEnvelope(options.session, failed, job.step, error.value.message),
                                      script.second);
        ReplyFailure(job.executing,
                     if marked.Confirmed? then error.value else ComposeFailure(error.value, Durability(marked)),
                     job.observed);
      } else {
        ReplyFailure(job.executing, error.value, job.observed);
        assert View() == written;
        EndedTurnStays(written, script);
      }
    }

    method WriteReconciled(envelope: Checkpoint, stage: Stage, end: WriteEnd)
      requires stage.ReconcileStage?
      modifies this
      ensures View() == Step(old(At(Writing(envelope, stage))), WriteAction(end))
    {
      var report := WriteCheckpoint(envelope, end);
      if report.Confirmed? {
        Reply(stage.context, ReconciledReply(stage.receiptId, stage.applied),
              [SessionReconciled(stage.receiptId, stage.applied)]);
      } else {
        ReplyFailure(memory, ReconcileWriteError(report), []);
      }
    }

    /** Reads, checks and writes the reconciliation of the stored envelope. */
    method Reconcile(message: Message, script: Script)
      requires message.ReconcileSession? && !Blank(message.receiptId)
      modifies this
      ensures View() == EndedTurn(OnReconcileRead(old(At(Reading(message))), message, script.read), script)
    {
      ghost var started := OnReconcileRead(At(Reading(message)), message, script.read);
      var error := None;
      if script.read.ReadThrew? {
        error := Some(ReadError(script.read.message));
      } else {
        error := ReconcileProblem(message, Derive(Found(store, script.read), {}));
      }
      if error.Some? {
        ReplyFailure(memory, error.value, []);
        assert View() == started;
        EndedTurnStays(started, script);
        return;
      }
      var found := Derive(Found(store, script.read), {}).envelope;
      var context := Rehydrate(if message.applied then message.checkpointState.value.state
                               else found.deterministic.state);
      var envelope := ReconciledEnvelope(found, context, message.receiptId, message.applied);
      assert started == At(Writing(envelope, ReconcileStage(context, message.receiptId, message.applied)));
      WriteReconciled(envelope, ReconcileStage(context, message.receiptId, message.applied), script.first);
      EndedTurnStays(View(), script);
    }

    /** One message from delivery to reply: exactly the machine's run of that turn. */
    method OnMessage(message: Message, script: Script)
      modifies this
      ensures View() == Run(old(View()), Turn(message, script))
    {
      ghost var started := StartedTurn(View(), message, script);
      TurnUnrolls(View(), message, script);
      if message.ReconcileSession? {
        if Blank(message.receiptId) {
          ReplyFailure(memory, BLANK_RECEIPT, []);
          assert View() == started;
          EndedTurnStays(started, script);
        } else {
          Reconcile(message, script);
        }
        return;
      }
      var bootstrap := StartingContext(memory, store, script.read);
      if bootstrap.Blocked? || message.GetContext? {
        if bootstrap.Blocked? {
          ReplyFailure(memory, bootstrap.error, []);
        } else {
          Reply(bootstrap.context, ContextReply(bootstrap.context), []);
        }
        assert View() == started;
        EndedTurnStays(started, script);
        return;
      }
      var begun := Begun(options, message, bootstrap.context);
      assert started == At(begun);
      if begun.stage.ToolStage? {
        NoteToolResult(begun.envelope, begun.stage, script.first);
        EndedTurnStays(View(), script);
      } else {
        AskModel(begun.stage.job, script);
      }
    }
  }

  function Replies(log: seq<Entry>): nat {
    if log == [] then 0 else Replies(log[..|log| - 1]) + (if log[|log| - 1].Replied? then 1 else 0)
  }

  lemma RepliesAfter(log: seq<Entry>, entry: Entry)
    ensures Replies(log + [entry]) == Replies(log) + if entry.Replied? then 1 else 0
  {
    assert (log + [entry])[..|log|] == log;
  }

  /** A reply is owed until the turn is over. */
  predicate ReplyOrOwe(m: Machine, next: Machine) {
    Replies(next.log) == Replies(m.log) + if next.pc.Idle? then 1 else 0
  }

  lemma ReadReplies(m: Machine, end: ReadEnd)
    requires m.pc.Reading?
    ensures ReplyOrOwe(m, Step(m, ReadDone(end)))
    ensures var pc := Step(m, ReadDone(end)).pc;
            pc.Idle? || (pc.Writing? && !pc.stage.ReceiptStage? && !pc.stage.MarkStage?)
  {
    var next := Step(m, ReadDone(end));
    if next.pc.Idle? {
      RepliesAfter(m.log, next.log[|m.log|]);
    }
  }

  lemma WrittenReplies(m: Machine, stage: Stage, report: Report)
    requires m.pc.Writing?
    ensures ReplyOrOwe(m, OnWritten(m, stage, report))
    ensures var pc := OnWritten(m, stage, report).pc; pc.Idle? || (pc.AwaitLlm? && stage.IntentStage?)
  {
    var next := OnWritten(m, stage, report);
    assert next.log == m.log + [next.log[|m.log|]];
    RepliesAfter(m.log, next.log[|m.log|]);
  }

  lemma WriteReplies(m: Machine, end: WriteEnd)
    requires m.pc.Writing?
    ensures ReplyOrOwe(m, Step(m, WriteAction(end)))
    ensures var pc := Step(m, WriteAction(end)).pc; pc.Idle? || (pc.AwaitLlm? && m.pc.stage.IntentStage?)
  {
    var landed := Land(m, m.pc.envelope, Lands(m.store, m.pc.envelope, end.landed, end.report));
    RepliesAfter(m.log, Persisted(m.pc.envelope));
    WrittenReplies(landed, m.pc.stage, end.report);
  }

  /** The second half of a turn: the model's answer and the write that follows it. */
  lemma AnswerReplies(m: Machine, script: Script)
    requires m.pc.AwaitLlm?
    ensures var next := Step(Step(m, LlmDone(script.llm)), WriteAction(script.second));
            next.pc.Idle? && ReplyOrOwe(m, next)
  {
    WriteReplies(Step(m, LlmDone(script.llm)), script.second);
  }

  lemma WritingTurnReplies(started: Machine, script: Script)
    requires started.pc.Writing? && !started.pc.stage.ReceiptStage? && !started.pc.stage.MarkStage?
    ensures EndedTurn(started, script).pc.Idle? && ReplyOrOwe(started, EndedTurn(started, script))
  {
    var first := Step(started, WriteAction(script.first));
    WriteReplies(started, script.first);
    if first.pc.Idle? {
      EndedTurnStays(first, script);
    } else {
      AnswerReplies(first, script);
    }
  }

  /** Every message that is not cut short by a crash gets exactly one reply, and the actor is free again. */
  lemma EveryMessageIsAnswered(m: Machine, message: Message, script: Script)
    requires m.pc.Idle?
    ensures var next := Run(m, Turn(message, script));
            next.pc.Idle? && Replies(next.log) == Replies(m.log) + 1
  {
    TurnUnrolls(m, message, script);
    var delivered := Step(m, Deliver(message));
    var started := Step(delivered, ReadDone(script.read));
    if delivered.pc.Idle? {
      RepliesAfter(m.log, Replied(Failure(BLANK_RECEIPT)));
      EndedTurnStays(delivered, script);
    } else {
      ReadReplies(delivered, script.read);
      if started.pc.Idle? {
        EndedTurnStays(started, script);
      } else {
        WritingTurnReplies(started, script);
      }
    }
  }
}
