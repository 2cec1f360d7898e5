/**
  At-most-once dispatch: with one writer on the session, every request to the model
  is preceded by a durable intent, and no second request leaves before a durable
  receipt or reconciliation of the first, wherever crashes and failures fall.
 */
module AgentProtocol {
  import opened Prelude
  import opened Text
  import opened CheckpointStore
  import opened AgentLoop

  function StepEffect(session: string, step: nat): string { EffectId(session, Digits(step)) }

  predicate ForStep(session: string, envelope: Checkpoint, step: nat) {
    envelope.effect.Some? && envelope.effect.value.effectId == StepEffect(session, step)
  }

  /** The envelope is a durable receipt, or a reconciliation, of this step's request. */
  predicate Settles(session: string, envelope: Checkpoint, step: nat) {
    && ForStep(session, envelope, step)
    && envelope.effect.value.phase == ReceiptRecorded && envelope.effect.value.receipt.Some?
  }

  predicate RecordsIntent(session: string, entry: Entry, step: nat) {
    && entry.Persisted? && ForStep(session, entry.envelope, step) && Unsettled(entry.envelope.effect)
  }

  ghost predicate WriteAhead(session: string, log: seq<Entry>) {
    forall i :: 0 <= i < |log| && log[i].Dispatched? ==> i > 0 && RecordsIntent(session, log[i - 1], log[i].step)
  }

  ghost predicate OncePerReceipt(session: string, log: seq<Entry>) {
    forall i, j :: 0 <= i < j < |log| && log[i].Dispatched? && log[j].Dispatched? ==>
      exists k :: i < k < j && log[k].Persisted? && Settles(session, log[k].envelope, log[i].step)
  }

  // ---------------------------------------------------------------- names

  ghost predicate NeverIntent(session: string, id: string) {
    forall n: nat :: id != CheckpointId(session, n, INTENT)
  }

  lemma KeysTellApart(session: string, m: nat, key: string, n: nat, other: string)
    ensures CheckpointId(session, m, key) == CheckpointId(session, n, other) ==> key == other
  {
    var prefix := "checkpoint:" + session + ":";
    var a, b := CheckpointId(session, m, key), CheckpointId(session, n, other);
    assert a == prefix + (Digits(m) + ":" + key) && b == prefix + (Digits(n) + ":" + other);
    if a == b {
      assert a[|prefix|..] == Digits(m) + ":" + key && b[|prefix|..] == Digits(n) + ":" + other;
      FieldsSplit(Digits(m), key, Digits(n), other);
    }
  }

  /** Steps have different effect ids, so a receipt belongs to one step only. */
  lemma EffectsAreDistinct(session: string, m: nat, n: nat)
    requires StepEffect(session, m) == StepEffect(session, n)
    ensures m == n
  {
    var prefix := "effect:" + session + ":";
    assert StepEffect(session, m)[|prefix|..] == Digits(m) && StepEffect(session, n)[|prefix|..] == Digits(n);
    DigitsAreInjective(m, n);
  }

  function Prefix(session: string): string { "checkpoint:" + session + ":" }

  function Suffixed(id: string): string { id + ":reconciled:" }

  lemma PrefixOfBoth(a: string, b: string, c: string, d: string)
    requires a + b == c + d && |a| <= |c|
    ensures a <= c
  {
    assert a == (a + b)[..|a|] && c[..|a|] == (c + d)[..|a|];
  }

  /** Of two ways to cut one text, the longer head reaches into the shorter head's tail. */
  lemma Overlap(a: string, b: string, c: string, d: string)
    requires a + b == c + d && !(a <= c)
    ensures |c| < |a| <= |c| + |d|
    ensures forall i :: |c| <= i < |a| ==> a[i] == d[i - |c|]
  {
    if |a| <= |c| {
      PrefixOfBoth(a, b, c, d);
    } else {
      assert |a| <= |a + b|;
      assert forall i :: |c| <= i < |a| ==> a[i] == (a + b)[i] == (c + d)[i] == d[i - |c|];
    }
  }

  lemma SuffixedEnds(id: string)
    ensures |Suffixed(id)| >= 2
    ensures Suffixed(id)[|Suffixed(id)| - 1] == ':' && Suffixed(id)[|Suffixed(id)| - 2] == 'd'
  {
    assert ":reconciled:"[11] == ':' && ":reconciled:"[10] == 'd';
  }

  /** A reconciled id is an intent id for some receipt only if the id before it stops inside the session's prefix. */
  lemma ReconciledNeverIntent(session: string, id: string, receiptId: string)
    requires !(Suffixed(id) <= Prefix(session))
    ensures NeverIntent(session, ReconciledId(id, receiptId))
  {
    SuffixedEnds(id);
    forall n: nat ensures ReconciledId(id, receiptId) != CheckpointId(session, n, INTENT) {
      var head, tail := Prefix(session), Digits(n) + ":" + INTENT;
      assert CheckpointId(session, n, INTENT) == head + tail && ReconciledId(id, receiptId) == Suffixed(id) + receiptId;
      if Suffixed(id) + receiptId == head + tail {
        Overlap(Suffixed(id), receiptId, head, tail);
        TailHasNoStop(Digits(n), |Suffixed(id)| - 1 - |head|);
      }
    }
  }

  /** After the step number's digits comes the only colon, and no 'd' stands before it. */
  lemma TailHasNoStop(digits: string, i: nat)
    requires digits != [] && forall k :: 0 <= k < |digits| ==> '0' <= digits[k] <= '9'
    requires i < |digits + ":" + INTENT|
    ensures var tail := digits + ":" + INTENT;
            tail[i] == ':' ==> i > 0 && tail[i - 1] != 'd'
  {
    var tail := digits + ":" + INTENT;
    assert INTENT == ['i', 'n', 't', 'e', 'n', 't', '_', 'r', 'e', 'c', 'o', 'r', 'd', 'e', 'd'];
    assert forall k :: 0 <= k < |INTENT| ==> INTENT[k] != ':';
    if i > |digits| {
      assert tail[i] == INTENT[i - |digits| - 1];
    }
  }

  lemma ReconciledMayBeIntent(session: string, id: string, n: nat) returns (receiptId: string)
    requires Suffixed(id) <= Prefix(session)
    ensures ReconciledId(id, receiptId) == CheckpointId(session, n, INTENT) && !Blank(receiptId)
  {
    var rest := Prefix(session)[|Suffixed(id)|..];
    receiptId := rest + Digits(n) + ":" + INTENT;
    assert Prefix(session) == Suffixed(id) + rest;
    assert receiptId[|receiptId| - 1] == 'd';
  }

  /** Every id the agent builds itself is longer than the session's prefix. */
  lemma OwnIdsAreLong(session: string, step: nat, key: string)
    ensures !(Suffixed(CheckpointId(session, step, key)) <= Prefix(session))
  {
    assert |CheckpointId(session, step, key)| > |Prefix(session)|;
  }

  // ---------------------------------------------------------------- the condition on the first envelope

  predicate Resumable(envelope: Checkpoint) {
    Readable(envelope) && !MustReconcile(envelope) && envelope.deterministic.StateJson?
  }

  predicate Reconcilable(envelope: Checkpoint) {
    Readable(envelope) && MustReconcile(envelope) && envelope.deterministic.StateJson?
  }

  /**
    The store a first agent meets: an envelope it could resume does not bear the id of the very next
    intent, and one it could reconcile is not named so that a reconciled id looks like an intent.
   */
  predicate Honest(session: string, store: Option<Checkpoint>) {
    store.Some? ==>
      && (Resumable(store.value) ==>
            store.value.checkpointId != CheckpointId(session, store.value.deterministic.state.steps + 1, INTENT))
      && (Reconcilable(store.value) ==> !(Suffixed(store.value.checkpointId) <= Prefix(session)))
  }

  lemma IntentIsHonest(session: string, context: Context, step: nat)
    ensures Honest(session, Some(IntentEnvelope(session, context, step)))
  {
    OwnIdsAreLong(session, step, INTENT);
  }

  lemma ReceiptIsHonest(session: string, context: Context, step: nat, receipt: Receipt)
    ensures Honest(session, Some(ReceiptEnvelope(session, context, step, receipt)))
  {
    KeysTellApart(session, step, RECEIPT, context.steps + 1, INTENT);
  }

  lemma MarkIsHonest(session: string, context: Context, step: nat, why: string)
    ensures Honest(session, Some(MarkEnvelope(session, context, step, why)))
  {
    OwnIdsAreLong(session, step, MARK);
  }

  lemma ToolIsHonest(session: string, context: Context, step: nat, toolCallId: string)
    ensures Honest(session, Some(ToolEnvelope(session, context, step, toolCallId)))
  {
    KeysTellApart(session, step, ToolKey(toolCallId), context.steps + 1, INTENT);
    assert ToolKey(toolCallId)[0] == 't' && INTENT[0] == 'i';
  }

  lemma ReconciledIsHonest(session: string, envelope: Checkpoint, context: Context, receiptId: string, applied: bool)
    requires Honest(session, Some(envelope)) && Reconcilable(envelope)
    ensures Honest(session, Some(ReconciledEnvelope(envelope, context, receiptId, applied)))
  {
    ReconciledNeverIntent(session, envelope.checkpointId, receiptId);
  }

  // ---------------------------------------------------------------- the invariant

  /** The last request whose receipt or reconciliation has not been persisted since. */
  function OpenStep(session: string, log: seq<Entry>): Option<nat> {
    if log == [] then None
    else
      var entry, earlier := log[|log| - 1], OpenStep(session, log[..|log| - 1]);
      match entry
      case Dispatched(step, _) => Some(step)
      case Persisted(envelope) => if earlier.Some? && Settles(session, envelope, earlier.value) then None else earlier
      case Replied(_) => earlier
  }

  lemma OpenAfter(session: string, log: seq<Entry>, entry: Entry)
    ensures OpenStep(session, log + [entry]) ==
            match entry
            case Dispatched(step, _) => Some(step)
            case Persisted(envelope) =>
              (var open := OpenStep(session, log);
               if open.Some? && Settles(session, envelope, open.value) then None else open)
            case Replied(_) => OpenStep(session, log)
  {
    assert (log + [entry])[..|log|] == log;
  }

  ghost predicate Disciplined(session: string, log: seq<Entry>) {
    forall i :: 0 <= i < |log| && log[i].Dispatched? ==>
      i > 0 && RecordsIntent(session, log[i - 1], log[i].step) && OpenStep(session, log[..i]) == None
  }

  lemma DisciplineGrows(session: string, log: seq<Entry>, entry: Entry)
    requires Disciplined(session, log)
    requires entry.Dispatched? ==>
               log != [] && RecordsIntent(session, log[|log| - 1], entry.step) && OpenStep(session, log) == None
    ensures Disciplined(session, log + [entry])
  {
    var longer := log + [entry];
    forall i | 0 <= i < |longer| && longer[i].Dispatched?
      ensures i > 0 && RecordsIntent(session, longer[i - 1], longer[i].step) && OpenStep(session, longer[..i]) == None
    {
      assert longer[..i] == log[..i];
      assert log[..|log|] == log;
    }
  }

  /** The stored envelope still asks for this step to be reconciled. */
  predicate Blocks(session: string, envelope: Checkpoint, step: nat) {
    ForStep(session, envelope, step) && MustReconcile(envelope)
  }

  ghost predicate Core(session: string, store: Option<Checkpoint>, log: seq<Entry>) {
    && Disciplined(session, log)
    && Honest(session, store)
    && (var open := OpenStep(session, log); open.Some? ==> store.Some? && Blocks(session, store.value, open.value))
  }

  /** The context the actor keeps if the write is confirmed. */
  function Kept(stage: Stage): Context {
    match stage
    case ToolStage(_, waiting, _, _) => waiting
    case IntentStage(job) => job.executing
    case ReceiptStage(job, result) =>
      if result.LlmOk? then AgentLoop.Settled(job, result).0 else job.executing.(lastError := Some(result.error))
    case MarkStage(job, error) => job.executing.(lastError := Some(error))
    case ReconcileStage(context, _, _) => context
  }

  /** What holds while a write is under way. */
  predicate WritingHolds(session: string, store: Option<Checkpoint>, open: Option<nat>, envelope: Checkpoint,
                         stage: Stage) {
    && Honest(session, Some(envelope)) && envelope.deterministic == StateJson(CheckpointState(Kept(stage)))
    && (store.Some? && store.value.checkpointId == envelope.checkpointId ==> stage.ToolStage?)
    && match stage
       case ToolStage(active, waiting, message, _) =>
         && open == None && waiting.history == active.history + [message]
         && (store.Some? ==> store.value.deterministic == StateJson(active))
       case IntentStage(job) => open == None && envelope == IntentEnvelope(session, job.executing, job.step)
       case ReceiptStage(job, _) => open == Some(job.step) && Settles(session, envelope, job.step)
       case MarkStage(job, _) => open == Some(job.step) && Blocks(session, envelope, job.step)
       case ReconcileStage(_, _, _) => open.Some? ==> Settles(session, envelope, open.value)
  }

  ghost predicate Invariant(m: Machine) {
    var session := m.options.session;
    && Core(session, m.store, m.log)
    && match m.pc
       case AwaitLlm(job) =>
         OpenStep(session, m.log) == Some(job.step) && m.store == Some(IntentEnvelope(session, job.executing, job.step))
       case Writing(envelope, stage) => WritingHolds(session, m.store, OpenStep(session, m.log), envelope, stage)
       case _ => true
  }

  ghost predicate Holds(m: Machine) { Core(m.options.session, m.store, m.log) }

  lemma FinishKeeps(m: Machine, context: Context, reply: Reply, events: seq<AgentEvent>)
    requires Holds(m)
    ensures Invariant(Finish(m, context, reply, events))
  {
    DisciplineGrows(m.options.session, m.log, Replied(reply));
    OpenAfter(m.options.session, m.log, Replied(reply));
  }

  lemma FailKeeps(m: Machine, context: Context, error: AgentError, prefix: seq<AgentEvent>)
    requires Holds(m)
    ensures Invariant(Fail(m, context, error, prefix))
  {
    FinishKeeps(m, context.(lastError := Some(error)), Failure(error), prefix + [StepFailed(context.steps, error)]);
  }

  lemma LandKeeps(session: string, store: Option<Checkpoint>, log: seq<Entry>, envelope: Checkpoint)
    requires Core(session, store, log) && Honest(session, Some(envelope))
    requires var open := OpenStep(session, log);
             open.Some? ==> Settles(session, envelope, open.value) || Blocks(session, envelope, open.value)
    ensures Core(session, Some(envelope), log + [Persisted(envelope)])
  {
    DisciplineGrows(session, log, Persisted(envelope));
    OpenAfter(session, log, Persisted(envelope));
  }

  lemma LandingKeeps(m: Machine, lands: bool)
    requires Invariant(m) && m.pc.Writing?
    ensures Holds(Land(m, m.pc.envelope, lands))
  {
    LandKeeps(m.options.session, m.store, m.log, m.pc.envelope);
  }

  /** The one place a request leaves from: the store confirmed an intent it did not hold before. */
  lemma {:induction false} DispatchKeeps(m: Machine, landed: bool, report: Report)
    requires Invariant(m) && m.pc.Writing? && m.pc.stage.IntentStage? && report.Confirmed?
    ensures Invariant(Step(m, WriteDone(landed, report)))
  {
    var session, job, envelope := m.options.session, m.pc.stage.job, m.pc.envelope;
    var there := Land(m, envelope, true);
    LandingKeeps(m, true);
    assert Lands(m.store, envelope, landed, report);
    OpenAfter(session, m.log, Persisted(envelope));
    assert there.log[|there.log| - 1] == Persisted(envelope);
    DisciplineGrows(session, there.log, Dispatched(job.step, job.request));
    OpenAfter(session, there.log, Dispatched(job.step, job.request));
  }

  lemma ToolWrittenKeeps(m: Machine, stage: Stage, report: Report)
    requires Holds(m) && (stage.IntentStage? ==> !report.Confirmed?)
    requires stage.ToolStage? || stage.IntentStage? || stage.ReconcileStage?
    ensures Invariant(OnWritten(m, stage, report))
  {
    match stage
    case ToolStage(active, waiting, message, observed) =>
      if report.Confirmed? {
        FinishKeeps(m, waiting, Answered(WaitingForTool, message, [], None), observed);
      } else {
        FailKeeps(m, active, Durability(report), observed);
      }
    case IntentStage(job) => FailKeeps(m, job.executing, Durability(report), job.observed);
    case ReconcileStage(context, receiptId, applied) =>
      if report.Confirmed? {
        FinishKeeps(m, context, ReconciledReply(receiptId, applied), [SessionReconciled(receiptId, applied)]);
      } else {
        FailKeeps(m, m.memory, ReconcileWriteError(report), []);
      }
  }

  lemma AnswerWrittenKeeps(m: Machine, stage: Stage, report: Report)
    requires Holds(m) && (stage.ReceiptStage? || stage.MarkStage?)
    ensures Invariant(OnWritten(m, stage, report))
  {
    match stage
    case ReceiptStage(job, result) =>
      if result.LlmOk? {
        var (context, reply, events) := AgentLoop.Settled(job, result);
        if report.Confirmed? {
          FinishKeeps(m, context, reply, events);
        } else {
          FailKeeps(m, context, Durability(report), events);
        }
      } else {
        FailKeeps(m, job.executing,
                  if report.Confirmed? then result.error else ComposeFailure(result.error, Durability(report)),
                  job.observed);
      }
    case MarkStage(job, error) =>
      FailKeeps(m, job.executing, if report.Confirmed? then error else ComposeFailure(error, Durability(report)),
                job.observed);
  }

  lemma WriteKeeps(m: Machine, landed: bool, report: Report)
    requires Invariant(m) && m.pc.Writing?
    ensures Invariant(Step(m, WriteDone(landed, report)))
  {
    if m.pc.stage.IntentStage? && report.Confirmed? {
      DispatchKeeps(m, landed, report);
    } else {
      var lands := Lands(m.store, m.pc.envelope, landed, report);
      LandingKeeps(m, lands);
      if m.pc.stage.ReceiptStage? || m.pc.stage.MarkStage? {
        AnswerWrittenKeeps(Land(m, m.pc.envelope, lands), m.pc.stage, report);
      } else {
        ToolWrittenKeeps(Land(m, m.pc.envelope, lands), m.pc.stage, report);
      }
    }
  }

  /** While a request is open no turn can begin: the store is deferred whatever the time. */
  lemma OpenBlocks(m: Machine, end: ReadEnd)
    requires Holds(m) && OpenStep(m.options.session, m.log).Some?
    ensures BootstrapCheckpoint(m, end).Blocked?
  {
    if end.ReadAt? {
      ReadingDecides(m.store.value, end.now);
    }
  }

  lemma ReadyIsResumable(m: Machine, end: ReadEnd)
    requires BootstrapCheckpoint(m, end).Ready? && m.store.Some?
    ensures Resumable(m.store.value) && BootstrapCheckpoint(m, end).context == m.store.value.deterministic.state
  {
    if end.ReadAt? {
      ReadingDecides(m.store.value, end.now);
    }
  }

  lemma BeginKeeps(m: Machine, message: Message, active: Context)
    requires Holds(m) && OpenStep(m.options.session, m.log) == None
    requires message.StartAgent? || message.ObserveToolResult?
    requires m.store.Some? ==>
               && m.store.value.checkpointId != CheckpointId(m.options.session, active.steps + 1, INTENT)
               && m.store.value.deterministic == StateJson(active)
    ensures Invariant(BeginTurn(m, message, active))
  {
    var next := BeginTurn(m, message, active);
    if next.pc.stage.ToolStage? {
      ToolIsHonest(m.options.session, next.pc.stage.waiting, active.steps, message.toolCallId);
    } else {
      IntentIsHonest(m.options.session, next.pc.stage.job.executing, active.steps + 1);
    }
  }

  lemma BootReadKeeps(m: Machine, message: Message, end: ReadEnd)
    requires Holds(m) && !message.ReconcileSession?
    ensures Invariant(OnBootRead(m, message, end))
  {
    match BootstrapCheckpoint(m, end)
    case Blocked(error) => FailKeeps(m, m.memory, error, []);
    case Ready(active) =>
      if OpenStep(m.options.session, m.log).Some? {
        OpenBlocks(m, end);
      } else if message.GetContext? {
        FinishKeeps(m, active, ContextReply(active), []);
      } else {
        if m.store.Some? {
          ReadyIsResumable(m, end);
        }
        BeginKeeps(m, message, active);
      }
  }

  lemma ReconcileReadKeeps(m: Machine, message: Message, end: ReadEnd)
    requires Holds(m) && message.ReconcileSession?
    ensures Invariant(OnReconcileRead(m, message, end))
  {
    if end.ReadThrew? {
      FailKeeps(m, m.memory, ReadError(end.message), []);
    } else {
      var problem := ReconcileProblem(message, Derive(Found(m.store, end), {}));
      if problem.Some? {
        FailKeeps(m, m.memory, problem.value, []);
      } else {
        ReadingDecides(m.store.value, end.now);
        var next := OnReconcileRead(m, message, end);
        ReconciledIsHonest(m.options.session, m.store.value, next.pc.stage.context, message.receiptId, message.applied);
      }
    }
  }

  lemma LlmKeeps(m: Machine, outcome: LlmOutcome)
    requires Invariant(m) && m.pc.AwaitLlm?
    ensures Invariant(Step(m, LlmDone(outcome)))
  {
    var session, job := m.options.session, m.pc.job;
    match outcome
    case LlmReturned(result) =>
      var context := if result.LlmOk? then AgentLoop.Settled(job, result).0
                     else job.executing.(lastError := Some(result.error));
      ReceiptIsHonest(session, context, job.step, SanitizedReceipt(result));
      KeysTellApart(session, job.step, RECEIPT, job.step, INTENT);
    case LlmThrew(thrown) =>
      var error := Normalize(thrown);
      MarkIsHonest(session, job.executing.(lastError := Some(error)), job.step, error.message);
      KeysTellApart(session, job.step, MARK, job.step, INTENT);
  }

  lemma CrashKeeps(m: Machine, landed: bool)
    requires Invariant(m)
    ensures Invariant(Step(m, Crash(landed)))
  {
    if m.pc.Writing? {
      LandingKeeps(m, landed);
    }
  }

  lemma StepKeeps(m: Machine, action: Action)
    requires Invariant(m)
    ensures Invariant(Step(m, action))
  {
    match action
    case Deliver(message) =>
      if m.pc.Idle? && message.ReconcileSession? && Blank(message.receiptId) {
        FailKeeps(m, m.memory, BLANK_RECEIPT, []);
      }
    case ReadDone(end) =>
      if m.pc.Reading? {
        if m.pc.message.ReconcileSession? {
          ReconcileReadKeeps(m, m.pc.message, end);
        } else {
          BootReadKeeps(m, m.pc.message, end);
        }
      }
    case WriteDone(landed, report) => if m.pc.Writing? { WriteKeeps(m, landed, report); }
    case LlmDone(outcome) => if m.pc.AwaitLlm? { LlmKeeps(m, outcome); }
    case Crash(landed) => CrashKeeps(m, landed);
  }

  lemma {:induction false} InvariantForever(o: Options, store: Option<Checkpoint>, actions: seq<Action>)
    requires Honest(o.session, store)
    ensures Invariant(Run(Boot(o, store), actions))
    ensures Run(Boot(o, store), actions).options == o
    decreases |actions|
  {
    if actions != [] {
      var before := Run(Boot(o, store), actions[..|actions| - 1]);
      InvariantForever(o, store, actions[..|actions| - 1]);
      StepKeeps(before, actions[|actions| - 1]);
      OptionsStay(before, actions[|actions| - 1]);
    }
  }

  lemma OptionsStay(m: Machine, action: Action)
    ensures Step(m, action).options == m.options
  {
  }

  // ---------------------------------------------------------------- the theorems

  /** Between a request and any later one lies its settlement. */
  lemma {:induction false} SettledInBetween(session: string, log: seq<Entry>, i: nat, n: nat)
    requires Disciplined(session, log) && i < n <= |log| && log[i].Dispatched?
    ensures || (exists k :: i < k < n && log[k].Persisted? && Settles(session, log[k].envelope, log[i].step))
            || OpenStep(session, log[..n]) == Some(log[i].step)
    decreases n
  {
    assert log[..n] == log[..n - 1] + [log[n - 1]];
    OpenAfter(session, log[..n - 1], log[n - 1]);
    if i < n - 1 {
      SettledInBetween(session, log, i, n - 1);
    }
  }

  lemma DisciplineSuffices(session: string, log: seq<Entry>)
    requires Disciplined(session, log)
    ensures WriteAhead(session, log) && OncePerReceipt(session, log)
  {
    forall i, j | 0 <= i < j < |log| && log[i].Dispatched? && log[j].Dispatched?
      ensures exists k :: i < k < j && log[k].Persisted? && Settles(session, log[k].envelope, log[i].step)
    {
      SettledInBetween(session, log, i, j);
    }
  }

  /**
    At most one effect per settlement: in every run, with any placement of crashes, read and write
    failures and model failures, each request follows a durable intent for its step and no request
    follows another without a durable receipt or reconciliation of the earlier one in between.
   */
  lemma {:induction false} AtMostOnceAcrossCrashes(o: Options, store: Option<Checkpoint>, actions: seq<Action>)
    requires Honest(o.session, store)
    ensures var log := Run(Boot(o, store), actions).log;
            WriteAhead(o.session, log) && OncePerReceipt(o.session, log)
  {
    InvariantForever(o, store, actions);
    DisciplineSuffices(o.session, Run(Boot(o, store), actions).log);
  }
}
