/**
  The agent loop over a durable checkpoint store, one step of the machine for each
  stretch of code between two awaits. The store may fail or lose an answer at every
  write, the model may fail or throw, and the actor may crash at every await.
 */
module AgentLoop {
  import opened Prelude
  import opened Text
  import opened CheckpointStore

  datatype ToolCall = ToolCall(id: string, name: string, input: string)

  datatype LlmMessage = LlmMessage(role: string, content: string, toolCallId: Option<string>,
                                   toolName: Option<string>, toolCalls: Option<seq<ToolCall>>)

  datatype Cause =
    | ThrownCause(message: string)
    | WriteCause(outcome: string)
    | Composed(original: Option<Cause>, durability: AgentError)

  datatype AgentError = AgentError(code: string, message: string, cause: Option<Cause>)

  datatype Context = Context(system: Option<string>, history: seq<LlmMessage>, steps: nat,
                             pendingToolCalls: seq<ToolCall>, lastError: Option<AgentError>)

  datatype Receipt =
    | LlmValue(role: string, toolCallId: Option<string>, toolName: Option<string>,
               toolCalls: Option<seq<ToolCall>>, usage: Option<string>)
    | LlmError(code: string, message: string)
    | Recorded
    | ReconciledBy(receiptId: string, applied: bool)

  /** A stored JSON value: one that reads as a checkpoint state, a receipt, or anything else. */
  datatype Json = StateJson(state: Context) | ReceiptJson(receipt: Receipt) | OtherJson(text: string)

  type Checkpoint = Envelope<Json>

  datatype Options = Options(session: string, system: Option<string>, initialHistory: seq<LlmMessage>,
                             initialState: Option<Context>)

  datatype Message =
    | StartAgent(prompt: string, system: Option<string>)
    | ObserveToolResult(toolCallId: string, name: string, ok: bool, output: string)
    | ReconcileSession(receiptId: string, applied: bool, checkpointState: Option<Json>)
    | GetContext

  datatype Request = Request(system: Option<string>, messages: seq<LlmMessage>)

  datatype Status = Responded | WaitingForTool

  datatype Reply =
    | Answered(status: Status, message: LlmMessage, toolCalls: seq<ToolCall>, usage: Option<string>)
    | ReconciledReply(receiptId: string, applied: bool)
    | ContextReply(context: Context)
    | Failure(error: AgentError)

  datatype AgentEvent =
    | StepCompleted(step: nat, message: LlmMessage)
    | ToolCallRequested(step: nat, toolCall: ToolCall)
    | ToolResultObserved(toolCallId: string, name: string, ok: bool)
    | StepFailed(step: nat, error: AgentError)
    | SessionReconciled(receiptId: string, applied: bool)

  // ---------------------------------------------------------------- checkpoint states

  function CheckpointState(context: Context): Context {
    context.(lastError := if context.lastError.Some? then Some(context.lastError.value.(cause := None)) else None)
  }

  function Rehydrate(state: Context): Context { state }

  /** A context survives its checkpoint exactly when its last error carries no cause. */
  lemma CheckpointRoundTrip(context: Context)
    ensures Rehydrate(CheckpointState(context)) == context <==>
            (context.lastError.Some? ==> context.lastError.value.cause.None?)
    ensures CheckpointState(Rehydrate(CheckpointState(context))) == CheckpointState(context)
  {
  }

  function OrElse<T>(first: Option<T>, second: Option<T>): Option<T> { if first.Some? then first else second }

  function InitialContext(o: Options): Context {
    if o.initialState.Some? then
      var context := Rehydrate(o.initialState.value);
      context.(system := OrElse(context.system, o.system))
    else Context(o.system, o.initialHistory, 0, [], None)
  }

  // ---------------------------------------------------------------- errors

  /** A thrown value: one shaped like an agent error already, or a bare message. */
  datatype Thrown = Thrown(message: string, error: Option<AgentError>)

  const UNREGISTERED := "Actor tool \"llm\" is not registered."

  function Normalize(thrown: Thrown): AgentError {
    if thrown.error.Some? then thrown.error.value
    else AgentError(if Includes(thrown.message, UNREGISTERED) then "LLM_TOOL_UNAVAILABLE" else "AGENT_LOOP_FAILED",
                    thrown.message, Some(ThrownCause(thrown.message)))
  }

  /** What the store says of a write. */
  datatype Report = Confirmed | Refused(outcome: string, why: Option<string>) | Threw(thrown: Thrown)

  function WriteFailure(report: Report): AgentError
    requires report.Refused?
  {
    AgentError("CHECKPOINT_WRITE_FAILED",
               "Checkpoint write failed: " + report.outcome
               + (if report.why.Some? then " (" + report.why.value + ")" else "") + ".",
               Some(WriteCause(report.outcome)))
  }

  /** The error of a write made for a step. */
  function Durability(report: Report): AgentError
    requires !report.Confirmed?
  {
    if report.Refused? then WriteFailure(report) else Normalize(report.thrown)
  }

  /** The error of the write made to reconcile, which keeps no error of the store's own. */
  function ReconcileWriteError(report: Report): AgentError
    requires !report.Confirmed?
  {
    if report.Refused? then WriteFailure(report)
    else AgentError("CHECKPOINT_WRITE_FAILED", "Checkpoint write failed: " + report.thrown.message,
                    Some(ThrownCause(report.thrown.message)))
  }

  function ComposeFailure(error: AgentError, durability: AgentError): AgentError {
    error.(cause := Some(Composed(error.cause, durability)))
  }

  // ---------------------------------------------------------------- envelopes

  function CheckpointId(session: string, step: nat, key: string): string {
    "checkpoint:" + session + ":" + Digits(step) + ":" + key
  }

  function EffectId(session: string, key: string): string { "effect:" + session + ":" + key }

  const INTENT := "intent_recorded"
  const RECEIPT := "receipt_recorded"
  const MARK := "reconciliation_required"

  function StepEnvelope(session: string, context: Context, step: nat, key: string, effect: Effect<Json>,
                        reconciliation: Reconciliation): Checkpoint {
    Envelope(session, CheckpointId(session, step, key), StateJson(CheckpointState(context)), Some(effect),
             None, reconciliation, None, None, [])
  }

  const SETTLED := Reconciliation(Clear, None)

  function IntentEnvelope(session: string, context: Context, step: nat): Checkpoint {
    StepEnvelope(session, context, step, INTENT,
                 Effect(EffectId(session, Digits(step)), IntentRecorded, true, None), SETTLED)
  }

  function ReceiptEnvelope(session: string, context: Context, step: nat, receipt: Receipt): Checkpoint {
    StepEnvelope(session, context, step, RECEIPT,
                 Effect(EffectId(session, Digits(step)), ReceiptRecorded, true, Some(ReceiptJson(receipt))), SETTLED)
  }

  function MarkEnvelope(session: string, context: Context, step: nat, why: string): Checkpoint {
    StepEnvelope(session, context, step, MARK,
                 Effect(EffectId(session, Digits(step)), ReconciliationRequired, true, None),
                 Reconciliation(Required, Some(why)))
  }

  function ToolKey(toolCallId: string): string { "tool_result:" + toolCallId }

  function ToolEnvelope(session: string, context: Context, step: nat, toolCallId: string): Checkpoint {
    StepEnvelope(session, context, step, ToolKey(toolCallId),
                 Effect(EffectId(session, ToolKey(toolCallId)), ReceiptRecorded, true,
                        Some(ReceiptJson(Recorded))), SETTLED)
  }

  function ReconciledId(checkpointId: string, receiptId: string): string {
    checkpointId + ":reconciled:" + receiptId
  }

  function ReconciledEnvelope(envelope: Checkpoint, context: Context, receiptId: string, applied: bool): Checkpoint {
    envelope.(
      checkpointId := ReconciledId(envelope.checkpointId, receiptId),
      deterministic := StateJson(CheckpointState(context)),
      effect := if envelope.effect.None? then None
                else Some(envelope.effect.value.(phase := ReceiptRecorded,
                                                 receipt := Some(ReceiptJson(ReconciledBy(receiptId, applied))))),
      reconciliation := SETTLED, staleAt := None)
  }

  /** A receipt keeps the shape of the model's answer, not its text. */
  function SanitizedReceipt(result: LlmResult): Receipt {
    match result
    case LlmOk(m, usage) => LlmValue(m.role, m.toolCallId, m.toolName, m.toolCalls, usage)
    case LlmFailed(error) => LlmError(error.code, error.message)
  }

  // ---------------------------------------------------------------- the machine

  datatype LlmResult = LlmOk(message: LlmMessage, usage: Option<string>) | LlmFailed(error: AgentError)

  datatype LlmOutcome = LlmReturned(result: LlmResult) | LlmThrew(thrown: Thrown)

  /** The turn in hand once its starting context is known. */
  datatype Job = Job(active: Context, executing: Context, step: nat, request: Request, observed: seq<AgentEvent>)

  datatype Stage =
    | ToolStage(active: Context, waiting: Context, message: LlmMessage, observed: seq<AgentEvent>)
    | IntentStage(job: Job)
    | ReceiptStage(job: Job, result: LlmResult)
    | MarkStage(job: Job, error: AgentError)
    | ReconcileStage(context: Context, receiptId: string, applied: bool)

  datatype Pc = Idle | Reading(message: Message) | Writing(envelope: Checkpoint, stage: Stage) | AwaitLlm(job: Job)

  datatype Entry = Persisted(envelope: Checkpoint) | Dispatched(step: nat, request: Request) | Replied(reply: Reply)

  datatype Machine = Machine(options: Options, memory: Context, store: Option<Checkpoint>, pc: Pc,
                             log: seq<Entry>, emitted: seq<AgentEvent>)

  /** How a read of the store ends. */
  datatype ReadEnd =
    | ReadAt(now: int)
    | ReadCorrupt(detail: Option<string>)
    | ReadVersion(found: string)
    | ReadThrew(message: string)

  datatype Action =
    | Deliver(message: Message)
    | ReadDone(end: ReadEnd)
    | WriteDone(landed: bool, report: Report)
    | LlmDone(outcome: LlmOutcome)
    | Crash(landed: bool)

  function Boot(o: Options, store: Option<Checkpoint>): Machine {
    Machine(o, InitialContext(o), store, Idle, [], [])
  }

  function Finish(m: Machine, context: Context, reply: Reply, events: seq<AgentEvent>): Machine {
    m.(memory := context, pc := Idle, log := m.log + [Replied(reply)], emitted := m.emitted + events)
  }

  function Fail(m: Machine, context: Context, error: AgentError, prefix: seq<AgentEvent>): Machine {
    Finish(m, context.(lastError := Some(error)), Failure(error), prefix + [StepFailed(context.steps, error)])
  }

  function Found(store: Option<Checkpoint>, end: ReadEnd): ReadResult<Json>
    requires !end.ReadThrew?
  {
    match end
    case ReadAt(now) => if store.None? then Missing else Classify(store.value, now)
    case ReadCorrupt(detail) => Corrupt(detail)
    case ReadVersion(found) => VersionMismatch(found)
  }

  function ReadError(message: string): AgentError {
    AgentError("CHECKPOINT_READ_FAILED", "Checkpoint read failed: " + message, Some(ThrownCause(message)))
  }

  const INVALID_STATE := AgentError("CHECKPOINT_INVALID_STATE", "Checkpoint deterministic state is invalid.", None)

  datatype Bootstrap = Ready(context: Context) | Blocked(error: AgentError)

  function RecoveryName(r: Recovery): string {
    match r
    case IsMissing => "missing"
    case IsCorrupt => "corrupt"
    case IsVersionMismatch => "version_mismatch"
    case IsExpired => "expired"
    case IsStale => "stale"
    case IsRedacted => "redacted"
    case IsIncompatible => "continuation_incompatible"
  }

  /** The context a turn starts from: the stored one, the actor's own when nothing is stored, or none. */
  function StartingContext(memory: Context, store: Option<Checkpoint>, end: ReadEnd): Bootstrap {
    if end.ReadThrew? then Blocked(ReadError(end.message))
    else
      match Derive(Found(store, end), {})
      case Resumed(envelope) =>
        if envelope.deterministic.StateJson? then Ready(Rehydrate(envelope.deterministic.state))
        else Blocked(INVALID_STATE)
      case Deferred(_, why) => Blocked(AgentError("CHECKPOINT_RECONCILIATION_REQUIRED", why, None))
      case Manual(recovery, detail) =>
        if recovery == IsMissing then Ready(memory)
        else Blocked(AgentError("CHECKPOINT_RECOVERY_REQUIRED",
                                if detail.Some? then detail.value
                                else "Checkpoint recovery required: " + RecoveryName(recovery) + ".", None))
  }

  function BootstrapCheckpoint(m: Machine, end: ReadEnd): Bootstrap { StartingContext(m.memory, m.store, end) }

  function Without(calls: seq<ToolCall>, id: string): seq<ToolCall> {
    if calls == [] then []
    else (if calls[0].id == id then [] else [calls[0]]) + Without(calls[1..], id)
  }

  /** `JSON.stringify` of the flag and an output that is JSON text already. */
  function Serialized(ok: bool, output: string): string {
    "{\"ok\":" + (if ok then "true" else "false") + ",\"output\":" + output + "}"
  }

  function NextMessage(message: Message): LlmMessage
    requires message.StartAgent? || message.ObserveToolResult?
  {
    if message.StartAgent? then LlmMessage("user", message.prompt, None, None, None)
    else LlmMessage("tool", Serialized(message.ok, message.output), Some(message.toolCallId), Some(message.name), None)
  }

  /** A turn that is not blocked and not a question: note a tool result, or record the intent to ask the model. */
  function Begun(o: Options, message: Message, active: Context): Pc
    requires message.StartAgent? || message.ObserveToolResult?
  {
    var next := NextMessage(message);
    var pending := if message.ObserveToolResult? then Without(active.pendingToolCalls, message.toolCallId)
                   else active.pendingToolCalls;
    var system := OrElse(if message.StartAgent? then OrElse(message.system, active.system) else active.system,
                         o.system);
    var messages := active.history + [next];
    var observed := if message.ObserveToolResult? then
                      [ToolResultObserved(message.toolCallId, message.name, message.ok)]
                    else [];
    var context := Context(system, messages, active.steps, pending, None);
    if message.ObserveToolResult? && pending != [] then
      Writing(ToolEnvelope(o.session, context, active.steps, message.toolCallId),
              ToolStage(active, context, next, observed))
    else
      var job := Job(active, context, active.steps + 1, Request(system, messages), observed);
      Writing(IntentEnvelope(o.session, context, job.step), IntentStage(job))
  }

  function BeginTurn(m: Machine, message: Message, active: Context): Machine
    requires message.StartAgent? || message.ObserveToolResult?
  {
    m.(pc := Begun(m.options, message, active))
  }

  function OnBootRead(m: Machine, message: Message, end: ReadEnd): Machine
    requires !message.ReconcileSession?
  {
    match BootstrapCheckpoint(m, end)
    case Blocked(error) => Fail(m, m.memory, error, [])
    case Ready(active) =>
      if message.GetContext? then Finish(m, active, ContextReply(active), []) else BeginTurn(m, message, active)
  }

  function ReconcileProblem(message: Message, rehydration: Rehydration<Json>): Option<AgentError>
    requires message.ReconcileSession?
  {
    if !rehydration.Deferred? then
      Some(AgentError("CHECKPOINT_RECONCILIATION_NOT_REQUIRED",
                      "The current checkpoint is not awaiting reconciliation.", None))
    else if !rehydration.envelope.deterministic.StateJson? then Some(INVALID_STATE)
    else if message.applied && !(message.checkpointState.Some? && message.checkpointState.value.StateJson?) then
      Some(AgentError("CHECKPOINT_RECONCILIATION_INVALID",
                      "Applied-effect reconciliation requires the resulting deterministic checkpoint state.", None))
    else None
  }

  function OnReconcileRead(m: Machine, message: Message, end: ReadEnd): Machine
    requires message.ReconcileSession?
  {
    if end.ReadThrew? then Fail(m, m.memory, ReadError(end.message), [])
    else
      var rehydration := Derive(Found(m.store, end), {});
      var problem := ReconcileProblem(message, rehydration);
      if problem.Some? then Fail(m, m.memory, problem.value, [])
      else
        var state := if message.applied then message.checkpointState.value.state
                     else rehydration.envelope.deterministic.state;
        var context := Rehydrate(state);
        m.(pc := Writing(ReconciledEnvelope(rehydration.envelope, context, message.receiptId, message.applied),
                         ReconcileStage(context, message.receiptId, message.applied)))
  }

  /** An answer of the model: its context, reply and events. */
  function Settled(job: Job, outcome: LlmResult): (Context, Reply, seq<AgentEvent>)
    requires outcome.LlmOk?
  {
    var calls := if outcome.message.toolCalls.Some? then outcome.message.toolCalls.value else [];
    (Context(job.request.system, job.request.messages + [outcome.message], job.step,
             job.executing.pendingToolCalls + calls, None),
     Answered(if calls != [] then WaitingForTool else Responded, outcome.message, calls, outcome.usage),
     job.observed + (if calls != [] then
                       seq(|calls|, i requires 0 <= i < |calls| => ToolCallRequested(job.step, calls[i]))
                     else [StepCompleted(job.step, outcome.message)]))
  }

  function OnLlm(m: Machine, job: Job, outcome: LlmOutcome): Machine {
    var session := m.options.session;
    match outcome
    case LlmReturned(result) =>
      var context := if result.LlmOk? then Settled(job, result).0 else job.executing.(lastError := Some(result.error));
      m.(pc := Writing(ReceiptEnvelope(session, context, job.step, SanitizedReceipt(result)),
                       ReceiptStage(job, result)))
    case LlmThrew(thrown) =>
      var error := Normalize(thrown);
      m.(pc := Writing(MarkEnvelope(session, job.executing.(lastError := Some(error)), job.step, error.message),
                       MarkStage(job, error)))
  }

  /** The code after each awaited write. */
  function OnWritten(m: Machine, stage: Stage, report: Report): Machine {
    match stage
    case ToolStage(active, waiting, message, observed) =>
      if report.Confirmed? then Finish(m, waiting, Answered(WaitingForTool, message, [], None), observed)
      else Fail(m, active, Durability(report), observed)
    case IntentStage(job) =>
      if report.Confirmed? then m.(pc := AwaitLlm(job), log := m.log + [Dispatched(job.step, job.request)])
      else Fail(m, job.executing, Durability(report), job.observed)
    case ReceiptStage(job, result) =>
      if result.LlmOk? then
        var (context, reply, events) := Settled(job, result);
        if report.Confirmed? then Finish(m, context, reply, events) else Fail(m, context, Durability(report), events)
      else
        Fail(m, job.executing,
             if report.Confirmed? then result.error else ComposeFailure(result.error, Durability(report)), job.observed)
    case MarkStage(job, error) =>
      Fail(m, job.executing, if report.Confirmed? then error else ComposeFailure(error, Durability(report)),
           job.observed)
    case ReconcileStage(context, receiptId, applied) =>
      if report.Confirmed? then
        Finish(m, context, ReconciledReply(receiptId, applied), [SessionReconciled(receiptId, applied)])
      else Fail(m, m.memory, ReconcileWriteError(report), [])
  }

  /**
    A write lands if the network says so, and in any case when the store confirms it, unless the
    store took it for a duplicate of the envelope it holds.
   */
  predicate Lands(store: Option<Checkpoint>, envelope: Checkpoint, landed: bool, report: Report) {
    landed || (report.Confirmed? && !(store.Some? && store.value.checkpointId == envelope.checkpointId))
  }

  function Land(m: Machine, envelope: Checkpoint, lands: bool): Machine {
    if lands then m.(store := Some(envelope), log := m.log + [Persisted(envelope)]) else m
  }

  const BLANK_RECEIPT := AgentError("CHECKPOINT_RECONCILIATION_INVALID",
                                    "Reconciliation requires a non-empty receiptId.", None)

  /** One step; an action that does not fit where the machine stands does nothing. */
  function Step(m: Machine, action: Action): Machine {
    match action
    case Deliver(message) =>
      if !m.pc.Idle? then m
      else if message.ReconcileSession? && Blank(message.receiptId) then Fail(m, m.memory, BLANK_RECEIPT, [])
      else m.(pc := Reading(message))
    case ReadDone(end) =>
      if !m.pc.Reading? then m
      else if m.pc.message.ReconcileSession? then OnReconcileRead(m, m.pc.message, end)
      else OnBootRead(m, m.pc.message, end)
    case WriteDone(landed, report) =>
      if !m.pc.Writing? then m
      else OnWritten(Land(m, m.pc.envelope, Lands(m.store, m.pc.envelope, landed, report)), m.pc.stage, report)
    case LlmDone(outcome) => if m.pc.AwaitLlm? then OnLlm(m, m.pc.job, outcome) else m
    case Crash(landed) =>
      var down := if m.pc.Writing? then Land(m, m.pc.envelope, landed) else m;
      down.(memory := InitialContext(m.options), pc := Idle)
  }

  function Run(m: Machine, actions: seq<Action>): Machine
    decreases |actions|
  {
    if actions == [] then m else Step(Run(m, actions[..|actions| - 1]), actions[|actions| - 1])
  }

  /** The in-memory store is one of the stores the machine allows for, whatever it holds and whatever the time. */
  lemma InMemoryStoreFits(entries: Entries<Json>, envelope: Checkpoint, now: int)
    ensures var (after, result) := Write(entries, envelope, now);
            var before := if envelope.sessionId in entries then Some(entries[envelope.sessionId]) else None;
            var report := if Durable(result) then Confirmed else Refused("expired", None);
            var landed := result.Stored? || result.Replaced?;
            && Lands(before, envelope, landed, report) == landed
            && (if envelope.sessionId in after then Some(after[envelope.sessionId]) else None) ==
               (if landed then Some(envelope) else before)
  {
  }
}
