/**
  Crash transparency: once the session has a stored checkpoint, restarting the agent
  with fresh memory between messages changes no reply, no request, no checkpoint.
 */
module AgentRestart {
  import opened Prelude
  import opened Text
  import opened CheckpointStore
  import opened AgentLoop

  /** An event without the step number a failure reports. */
  function Blurred(e: AgentEvent): AgentEvent { if e.StepFailed? then e.(step := 0) else e }

  function Blur(events: seq<AgentEvent>): seq<AgentEvent> {
    seq(|events|, i requires 0 <= i < |events| => Blurred(events[i]))
  }

  lemma BlurAppends(a: seq<AgentEvent>, b: seq<AgentEvent>)
    ensures Blur(a + b) == Blur(a) + Blur(b)
  {
  }

  /** Two agents on one stored session that differ at most in memory and in the step numbers of failure events. */
  predicate Same(m: Machine, other: Machine) {
    && m.store.Some?
    && other == m.(memory := other.memory, emitted := other.emitted)
    && Blur(m.emitted) == Blur(other.emitted)
  }

  lemma FinishesAlike(m: Machine, other: Machine, context: Context, reply: Reply, events: seq<AgentEvent>)
    requires Same(m, other)
    ensures Same(Finish(m, context, reply, events), Finish(other, context, reply, events))
  {
    BlurAppends(m.emitted, events);
    BlurAppends(other.emitted, events);
  }

  lemma FailsAlike(m: Machine, other: Machine, context: Context, last: Context, error: AgentError,
                   prefix: seq<AgentEvent>)
    requires Same(m, other)
    ensures Same(Fail(m, context, error, prefix), Fail(other, last, error, prefix))
  {
    var a, b := prefix + [StepFailed(context.steps, error)], prefix + [StepFailed(last.steps, error)];
    assert Blur(a) == Blur(prefix) + [StepFailed(0, error)] && Blur(b) == Blur(prefix) + [StepFailed(0, error)];
    BlurAppends(m.emitted, a);
    BlurAppends(other.emitted, b);
  }

  /** With something stored, the starting context is the stored one, whatever the actor remembers. */
  lemma BootstrapsAlike(m: Machine, other: Machine, end: ReadEnd)
    requires Same(m, other)
    ensures BootstrapCheckpoint(m, end) == BootstrapCheckpoint(other, end)
  {
    if end.ReadAt? {
      ReadingDecides(m.store.value, end.now);
      StoredIsNotMissing(m.store.value, end.now);
    }
  }

  lemma StoredIsNotMissing(envelope: Checkpoint, now: int)
    ensures var outcome := Derive(Classify(envelope, now), {});
            outcome.Manual? ==> outcome.recovery != IsMissing
  {
  }

  lemma BootReadAlike(m: Machine, other: Machine, message: Message, end: ReadEnd)
    requires Same(m, other) && !message.ReconcileSession?
    ensures Same(OnBootRead(m, message, end), OnBootRead(other, message, end))
  {
    BootstrapsAlike(m, other, end);
    match BootstrapCheckpoint(m, end)
    case Blocked(error) => FailsAlike(m, other, m.memory, other.memory, error, []);
    case Ready(active) =>
      if message.GetContext? {
        FinishesAlike(m, other, active, ContextReply(active), []);
      }
  }

  lemma ReconcileReadAlike(m: Machine, other: Machine, message: Message, end: ReadEnd)
    requires Same(m, other) && message.ReconcileSession?
    ensures Same(OnReconcileRead(m, message, end), OnReconcileRead(other, message, end))
  {
    if end.ReadThrew? {
      FailsAlike(m, other, m.memory, other.memory, ReadError(end.message), []);
    } else {
      var problem := ReconcileProblem(message, Derive(Found(m.store, end), {}));
      if problem.Some? {
        FailsAlike(m, other, m.memory, other.memory, problem.value, []);
      }
    }
  }

  lemma StepWritesAlike(m: Machine, other: Machine, stage: Stage, report: Report)
    requires Same(m, other) && (stage.ToolStage? || stage.IntentStage? || stage.ReconcileStage?)
    ensures Same(OnWritten(m, stage, report), OnWritten(other, stage, report))
  {
    match stage
    case ToolStage(active, waiting, message, observed) =>
      if report.Confirmed? {
        FinishesAlike(m, other, waiting, Answered(WaitingForTool, message, [], None), observed);
      } else {
        FailsAlike(m, other, active, active, Durability(report), observed);
      }
    case IntentStage(job) =>
      if !report.Confirmed? {
        FailsAlike(m, other, job.executing, job.executing, Durability(report), job.observed);
      }
    case ReconcileStage(context, receiptId, applied) =>
      if report.Confirmed? {
        FinishesAlike(m, other, context, ReconciledReply(receiptId, applied), [SessionReconciled(receiptId, applied)]);
      } else {
        FailsAlike(m, other, m.memory, other.memory, ReconcileWriteError(report), []);
      }
  }

  lemma AnswerWritesAlike(m: Machine, other: Machine, stage: Stage, report: Report)
    requires Same(m, other) && (stage.ReceiptStage? || stage.MarkStage?)
    ensures Same(OnWritten(m, stage, report), OnWritten(other, stage, report))
  {
    match stage
    case ReceiptStage(job, result) =>
      if result.LlmOk? {
        var (context, reply, events) := AgentLoop.Settled(job, result);
        if report.Confirmed? {
          FinishesAlike(m, other, context, reply, events);
        } else {
          FailsAlike(m, other, context, context, Durability(report), events);
        }
      } else {
        var error := if report.Confirmed? then result.error else ComposeFailure(result.error, Durability(report));
        FailsAlike(m, other, job.executing, job.executing, error, job.observed);
      }
    case MarkStage(job, error) =>
      var final := if report.Confirmed? then error else ComposeFailure(error, Durability(report));
      FailsAlike(m, other, job.executing, job.executing, final, job.observed);
  }

  lemma StepsAlike(m: Machine, other: Machine, action: Action)
    requires Same(m, other)
    ensures Same(Step(m, action), Step(other, action))
  {
    match action
    case Deliver(message) =>
      if m.pc.Idle? && message.ReconcileSession? && Blank(message.receiptId) {
        FailsAlike(m, other, m.memory, other.memory, BLANK_RECEIPT, []);
      }
    case ReadDone(end) =>
      if m.pc.Reading? {
        if m.pc.message.ReconcileSession? {
          ReconcileReadAlike(m, other, m.pc.message, end);
        } else {
          BootReadAlike(m, other, m.pc.message, end);
        }
      }
    case WriteDone(landed, report) =>
      if m.pc.Writing? {
        var lands := Lands(m.store, m.pc.envelope, landed, report);
        var a, b := Land(m, m.pc.envelope, lands), Land(other, m.pc.envelope, lands);
        if m.pc.stage.ReceiptStage? || m.pc.stage.MarkStage? {
          AnswerWritesAlike(a, b, m.pc.stage, report);
        } else {
          StepWritesAlike(a, b, m.pc.stage, report);
        }
      }
    case LlmDone(outcome) =>
    case Crash(landed) =>
  }

  /** The run's actions without the restarts that fall between two messages. */
  function Uninterrupted(m: Machine, actions: seq<Action>): seq<Action>
    decreases |actions|
  {
    if actions == [] then []
    else
      var earlier, last := actions[..|actions| - 1], actions[|actions| - 1];
      if last.Crash? && Run(m, earlier).pc.Idle? then Uninterrupted(m, earlier)
      else Uninterrupted(m, earlier) + [last]
  }

  lemma RestartIsSame(m: Machine, other: Machine, landed: bool)
    requires Same(m, other) && m.pc.Idle?
    ensures Same(Step(m, Crash(landed)), other)
  {
  }

  /**
    Crash transparency: once a checkpoint is stored, a run with any number of restarts between messages
    gives the same replies, requests and stored checkpoints as the run without them, and the same
    events up to the step number of failure events.
   */
  lemma {:induction false} CrashTransparency(m: Machine, actions: seq<Action>)
    requires m.store.Some?
    ensures var restarted, steady := Run(m, actions), Run(m, Uninterrupted(m, actions));
            && Same(restarted, steady)
            && restarted.log == steady.log && restarted.store == steady.store
    decreases |actions|
  {
    if actions != [] {
      var k := |actions| - 1;
      CrashTransparency(m, actions[..k]);
      var restarted, steady := Run(m, actions[..k]), Run(m, Uninterrupted(m, actions[..k]));
      if actions[k].Crash? && restarted.pc.Idle? {
        RestartIsSame(restarted, steady, actions[k].landed);
      } else {
        StepsAlike(restarted, steady, actions[k]);
        var all := Uninterrupted(m, actions[..k]) + [actions[k]];
        assert all[..|all| - 1] == Uninterrupted(m, actions[..k]);
      }
    }
  }

  /** The steps that fail from what the actor remembers, rather than from the turn's own context. */
  predicate FailsFromMemory(m: Machine, action: Action) {
    match action
    case Deliver(message) => m.pc.Idle? && message.ReconcileSession? && Blank(message.receiptId)
    case ReadDone(end) =>
      m.pc.Reading? &&
      if m.pc.message.ReconcileSession? then
        end.ReadThrew? || ReconcileProblem(m.pc.message, Derive(Found(m.store, end), {})).Some?
      else BootstrapCheckpoint(m, end).Blocked?
    case WriteDone(_, report) => m.pc.Writing? && m.pc.stage.ReconcileStage? && !report.Confirmed?
    case _ => false
  }

  /** Fails with nothing but memory behind it. */
  lemma MemoryFailureNamesStep(m: Machine, action: Action)
    requires FailsFromMemory(m, action)
    ensures exists error :: Step(m, action).emitted == m.emitted + [StepFailed(m.memory.steps, error)]
  {
    match action
    case Deliver(message) =>
      assert Step(m, action).emitted == m.emitted + [StepFailed(m.memory.steps, BLANK_RECEIPT)];
    case ReadDone(end) =>
      ReadFailureNamesStep(m, end);
    case WriteDone(landed, report) =>
      assert Step(m, action).emitted == m.emitted + [StepFailed(m.memory.steps, ReconcileWriteError(report))];
  }

  lemma ReadFailureNamesStep(m: Machine, end: ReadEnd)
    requires FailsFromMemory(m, ReadDone(end))
    ensures exists error :: Step(m, ReadDone(end)).emitted == m.emitted + [StepFailed(m.memory.steps, error)]
  {
    var error :=
      if !m.pc.message.ReconcileSession? then BootstrapCheckpoint(m, end).error
      else if end.ReadThrew? then ReadError(end.message)
      else ReconcileProblem(m.pc.message, Derive(Found(m.store, end), {})).value;
    assert Step(m, ReadDone(end)).emitted == m.emitted + [StepFailed(m.memory.steps, error)];
  }

  /** What a step emits, whatever was emitted before. */
  function NewEvents(m: Machine, action: Action): seq<AgentEvent> { Step(m.(emitted := []), action).emitted }

  lemma ReadIsAppended(m: Machine, end: ReadEnd)
    ensures Step(m, ReadDone(end)).emitted == m.emitted + NewEvents(m, ReadDone(end))
  {
    if m.pc.Reading? && m.pc.message.ReconcileSession? {
      assert OnReconcileRead(m, m.pc.message, end).emitted ==
             m.emitted + OnReconcileRead(m.(emitted := []), m.pc.message, end).emitted;
    }
  }

  lemma WrittenIsAppended(m: Machine, stage: Stage, report: Report)
    ensures OnWritten(m, stage, report).emitted == m.emitted + OnWritten(m.(emitted := []), stage, report).emitted
  {
  }

  lemma WriteIsAppended(m: Machine, landed: bool, report: Report)
    ensures Step(m, WriteDone(landed, report)).emitted == m.emitted + NewEvents(m, WriteDone(landed, report))
  {
    if m.pc.Writing? {
      WrittenIsAppended(Land(m, m.pc.envelope, Lands(m.store, m.pc.envelope, landed, report)), m.pc.stage, report);
    }
  }

  lemma EmittedIsAppended(m: Machine, action: Action)
    ensures Step(m, action).emitted == m.emitted + NewEvents(m, action)
  {
    if action.ReadDone? {
      ReadIsAppended(m, action.end);
    } else if action.WriteDone? {
      WriteIsAppended(m, action.landed, action.report);
    }
  }

  lemma OtherStepsEmitAlike(m: Machine, other: Machine, action: Action)
    requires Same(m, other) && m.emitted == other.emitted && !FailsFromMemory(m, action)
    ensures Step(m, action).emitted == Step(other, action).emitted
  {
    if action.ReadDone? {
      BootstrapsAlike(m, other, action.end);
    }
  }

  lemma FailsFromMemoryAlike(m: Machine, other: Machine, action: Action)
    requires Same(m, other)
    ensures FailsFromMemory(m, action) == FailsFromMemory(other, action)
  {
    if action.ReadDone? {
      BootstrapsAlike(m, other, action.end);
    }
  }

  /** Two agents on one session emit the same in a step, but for the step number of a failure from memory. */
  lemma NewEventsAlike(m: Machine, other: Machine, action: Action)
    requires Same(m, other)
    ensures FailsFromMemory(m, action) ==>
              exists error :: NewEvents(m, action) == [StepFailed(m.memory.steps, error)]
                              && NewEvents(other, action) == [StepFailed(other.memory.steps, error)]
    ensures !FailsFromMemory(m, action) ==> NewEvents(m, action) == NewEvents(other, action)
  {
    var a, b := m.(emitted := []), other.(emitted := []);
    assert FailsFromMemory(a, action) == FailsFromMemory(m, action);
    if FailsFromMemory(m, action) {
      FailsFromMemoryAlike(a, b, action);
      MemoryFailureNamesStep(a, action);
      MemoryFailureNamesStep(b, action);
      StepsAlike(a, b, action);
      SameFailure(Step(a, action).emitted, Step(b, action).emitted);
    } else {
      OtherStepsEmitAlike(a, b, action);
    }
  }

  lemma SameFailure(a: seq<AgentEvent>, b: seq<AgentEvent>)
    requires |a| == |b| == 1 && a[0].StepFailed? && b[0].StepFailed? && Blur(a) == Blur(b)
    ensures a[0].error == b[0].error
  {
    assert Blur(a)[0] == Blurred(a[0]) && Blur(b)[0] == Blurred(b[0]);
  }

  /** Where the two agents' next events differ: nowhere, or at the one failure that names two different steps. */
  function NewlyShown(restarted: Machine, steady: Machine, action: Action): set<nat> {
    if FailsFromMemory(restarted, action) && restarted.memory.steps != steady.memory.steps then {|restarted.emitted|}
    else {}
  }

  /** Where an interrupted run fails from a memory that remembers another step than the uninterrupted one's. */
  function ShownAt(m: Machine, actions: seq<Action>): set<nat>
    decreases |actions|
  {
    if actions == [] then {}
    else
      var earlier, last := actions[..|actions| - 1], actions[|actions| - 1];
      var restarted, steady := Run(m, earlier), Run(m, Uninterrupted(m, earlier));
      ShownAt(m, earlier) + (if last.Crash? && restarted.pc.Idle? then {} else NewlyShown(restarted, steady, last))
  }

  ghost predicate DifferExactlyAt(a: seq<AgentEvent>, b: seq<AgentEvent>, where: set<nat>) {
    |a| == |b| && forall k: nat :: k < |a| ==> (a[k] != b[k] <==> k in where)
  }

  lemma DifferOn(a: seq<AgentEvent>, b: seq<AgentEvent>, where: set<nat>, x: seq<AgentEvent>, y: seq<AgentEvent>,
                 more: set<nat>)
    requires DifferExactlyAt(a, b, where) && |x| == |y|
    requires forall k :: k in where ==> k < |a|
    requires forall k :: k in more ==> k >= |a|
    requires forall k: nat :: k < |x| ==> (x[k] != y[k] <==> |a| + k in more)
    ensures DifferExactlyAt(a + x, b + y, where + more)
  {
    forall k: nat | k < |a + x| ensures (a + x)[k] != (b + y)[k] <==> k in where + more {
      if k >= |a| {
        assert (a + x)[k] == x[k - |a|] && (b + y)[k] == y[k - |a|];
        assert |a| + (k - |a|) == k;
      }
    }
  }

  /**
    Exactly where restarts show, over a whole run: the events of the interrupted and of the uninterrupted run
    have the same length and differ at exactly the places where a turn failed with nothing but memory to
    report from and the two memories named different steps.
   */
  lemma {:induction false} RestartShowsOnlyInFailures(m: Machine, actions: seq<Action>)
    requires m.store.Some?
    ensures DifferExactlyAt(Run(m, actions).emitted, Run(m, Uninterrupted(m, actions)).emitted, ShownAt(m, actions))
    ensures forall k :: k in ShownAt(m, actions) ==> k < |Run(m, actions).emitted|
    decreases |actions|
  {
    if actions != [] {
      var k := |actions| - 1;
      RestartShowsOnlyInFailures(m, actions[..k]);
      if !(actions[k].Crash? && Run(m, actions[..k]).pc.Idle?) {
        CrashTransparency(m, actions[..k]);
        LastSteadyStep(m, actions);
        StepShows(Run(m, actions[..k]), Run(m, Uninterrupted(m, actions[..k])), actions[k], ShownAt(m, actions[..k]));
      }
    }
  }

  /** The last step of the uninterrupted run, when it is not a restart that falls away. */
  lemma LastSteadyStep(m: Machine, actions: seq<Action>)
    requires actions != [] && !(actions[|actions| - 1].Crash? && Run(m, actions[..|actions| - 1]).pc.Idle?)
    ensures Run(m, Uninterrupted(m, actions)) ==
            Step(Run(m, Uninterrupted(m, actions[..|actions| - 1])), actions[|actions| - 1])
  {
    var all := Uninterrupted(m, actions[..|actions| - 1]) + [actions[|actions| - 1]];
    assert all[..|all| - 1] == Uninterrupted(m, actions[..|actions| - 1]);
  }

  lemma StepShows(restarted: Machine, steady: Machine, action: Action, where: set<nat>)
    requires Same(restarted, steady) && DifferExactlyAt(restarted.emitted, steady.emitted, where)
    requires forall i :: i in where ==> i < |restarted.emitted|
    ensures DifferExactlyAt(Step(restarted, action).emitted, Step(steady, action).emitted,
                            where + NewlyShown(restarted, steady, action))
    ensures forall i :: i in where + NewlyShown(restarted, steady, action) ==> i < |Step(restarted, action).emitted|
  {
    EmittedIsAppended(restarted, action);
    EmittedIsAppended(steady, action);
    NewEventsAlike(restarted, steady, action);
    DifferOn(restarted.emitted, steady.emitted, where,
             NewEvents(restarted, action), NewEvents(steady, action), NewlyShown(restarted, steady, action));
  }

  // The run: a session stored at step one, a question, a restart, and a reconciliation with a blank receipt.

  const PLAIN := Options("s", None, [], None)
  const STORED := ReceiptEnvelope("s", Context(None, [], 1, [], None), 1, Recorded)
  const QUESTION := [Deliver(GetContext), ReadDone(ReadAt(0))]
  const BLANK_RECONCILIATION := Deliver(ReconcileSession("", false, None))

  /** A run in which a restart changes an event: the failure names step zero instead of step one. */
  lemma RestartChangesEvent()
    ensures var m := Boot(PLAIN, Some(STORED));
            var actions := QUESTION + [Crash(false), BLANK_RECONCILIATION];
            && Uninterrupted(m, actions) == QUESTION + [BLANK_RECONCILIATION]
            && Run(m, actions).emitted == [StepFailed(0, BLANK_RECEIPT)]
            && Run(m, Uninterrupted(m, actions)).emitted == [StepFailed(1, BLANK_RECEIPT)]
            && Run(m, actions).log == Run(m, Uninterrupted(m, actions)).log
  {
    var m := Boot(PLAIN, Some(STORED));
    var all, steady := QUESTION + [Crash(false), BLANK_RECONCILIATION], QUESTION + [BLANK_RECONCILIATION];
    QuestionAnswered();
    assert all[..3] == QUESTION + [Crash(false)] && all[..3][..2] == QUESTION;
    assert all == all[..3] + [BLANK_RECONCILIATION];
    assert steady[..2] == QUESTION;
    assert Run(m, all[..3]) == Step(Run(m, QUESTION), Crash(false));
    assert Uninterrupted(m, all[..3]) == QUESTION;
    CrashTransparency(m, all);
  }

  lemma QuestionAnswered()
    ensures var m := Boot(PLAIN, Some(STORED)); var asked := Run(m, QUESTION);
            && asked.pc.Idle? && asked.options == PLAIN && asked.memory.steps == 1 && asked.emitted == []
            && Uninterrupted(m, QUESTION) == QUESTION
  {
    var m := Boot(PLAIN, Some(STORED));
    assert QUESTION[..1] == [QUESTION[0]] && QUESTION[..1][..0] == [] && QUESTION == QUESTION[..1] + [QUESTION[1]];
    ReadingDecides(STORED, 0);
    assert Run(m, QUESTION[..1]) == Step(m, QUESTION[0]);
    assert Uninterrupted(m, QUESTION[..1]) == QUESTION[..1];
  }
}
