/**
  Agent-session checkpoints: what a stored envelope means to a reader at a given
  time, and the in-memory store.
 */
module CheckpointStore {
  import opened Prelude

  datatype Phase = NoPhase | IntentRecorded | ReceiptRecorded | ReconciliationRequired

  /** `J` stands for the stored JSON values, which the store never looks into. */
  datatype Effect<J> = Effect(effectId: string, phase: Phase, irreversible: bool, receipt: Option<J>)

  datatype Format = Format(provider: string, adapter: string, formatVersion: string)

  datatype Continuation = Continuation(format: Format, expiresAt: Option<int>, metadataOnly: bool, fields: seq<string>)

  datatype Standing = Clear | Pending | Required

  datatype Reconciliation = Reconciliation(status: Standing, reason: Option<string>)

  datatype Envelope<J> = Envelope(
    sessionId: string, checkpointId: string, deterministic: J, effect: Option<Effect<J>>,
    continuation: Option<Continuation>, reconciliation: Reconciliation,
    expiresAt: Option<int>, staleAt: Option<int>, redactedFields: seq<string>)

  datatype ReadResult<J> =
    | Missing
    | Corrupt(detail: Option<string>)
    | VersionMismatch(found: string)
    | Expired(envelope: Envelope<J>)
    | Stale(envelope: Envelope<J>)
    | Redacted(envelope: Envelope<J>, fields: seq<string>)
    | Present(envelope: Envelope<J>)

  datatype Recovery = IsMissing | IsCorrupt | IsVersionMismatch | IsExpired | IsStale | IsRedacted | IsIncompatible

  datatype Rehydration<J> =
    | Resumed(envelope: Envelope<J>)
    | Deferred(envelope: Envelope<J>, why: string)
    | Manual(recovery: Recovery, detail: Option<string>)

  predicate Passed(moment: Option<int>, now: int) { moment.Some? && moment.value <= now }

  predicate PastExpiry<J>(envelope: Envelope<J>, now: int) {
    || Passed(envelope.expiresAt, now)
    || (envelope.continuation.Some? && Passed(envelope.continuation.value.expiresAt, now))
  }

  function Classify<J>(envelope: Envelope<J>, now: int): ReadResult<J> {
    if Passed(envelope.expiresAt, now) then Expired(envelope)
    else if envelope.continuation.Some? && Passed(envelope.continuation.value.expiresAt, now) then Expired(envelope)
    else if Passed(envelope.staleAt, now) then Stale(envelope)
    else if envelope.redactedFields != [] then Redacted(envelope, envelope.redactedFields)
    else if envelope.continuation.Some? && envelope.continuation.value.metadataOnly then
      Redacted(envelope, envelope.continuation.value.fields)
    else Present(envelope)
  }

  const UNSETTLED := "Irreversible effect intent was recorded without a settled receipt."
  const RECONCILE_FIRST := "Checkpoint requires reconciliation before resume."

  function Joined(fields: seq<string>): string {
    if fields == [] then "" else if |fields| == 1 then fields[0] else fields[0] + "," + Joined(fields[1..])
  }

  predicate Unsettled<J>(effect: Option<Effect<J>>) {
    effect.Some? && effect.value.irreversible && effect.value.phase == IntentRecorded && effect.value.receipt.None?
  }

  function Derive<J>(result: ReadResult<J>, supported: set<Format>): Rehydration<J> {
    match result
    case Missing => Manual(IsMissing, None)
    case Corrupt(detail) => Manual(IsCorrupt, detail)
    case VersionMismatch(found) => Manual(IsVersionMismatch, Some("Unsupported schema version: " + found))
    case Expired(_) => Manual(IsExpired, None)
    case Stale(_) => Manual(IsStale, None)
    case Redacted(_, fields) => Manual(IsRedacted, Some(Joined(fields)))
    case Present(envelope) =>
      var continuation := envelope.continuation;
      if continuation.Some? && continuation.value.metadataOnly then
        Manual(IsRedacted, Some(Joined(continuation.value.fields)))
      else if continuation.Some? && continuation.value.format !in supported then
        var format := continuation.value.format;
        Manual(IsIncompatible,
               Some("Unsupported continuation format: " + format.provider + "/" + format.adapter
                    + "@" + format.formatVersion))
      else if Unsettled(envelope.effect) then Deferred(envelope, UNSETTLED)
      else if envelope.reconciliation.status != Clear
              || (envelope.effect.Some? && envelope.effect.value.phase == ReconciliationRequired) then
        Deferred(envelope, if envelope.reconciliation.reason.Some? then envelope.reconciliation.reason.value
                           else RECONCILE_FIRST)
      else Resumed(envelope)
  }

  /** Nothing but time stands between a reader that supports no continuation and this envelope. */
  predicate Readable<J>(envelope: Envelope<J>) { envelope.continuation.None? && envelope.redactedFields == [] }

  predicate MustReconcile<J>(envelope: Envelope<J>) {
    || Unsettled(envelope.effect)
    || envelope.reconciliation.status != Clear
    || (envelope.effect.Some? && envelope.effect.value.phase == ReconciliationRequired)
  }

  predicate Current<J>(envelope: Envelope<J>, now: int) {
    !Passed(envelope.expiresAt, now) && !Passed(envelope.staleAt, now)
  }

  /**
    What a reader without continuation support may do, exactly: it resumes when the envelope is current,
    readable and settled, defers when only settlement is missing, and needs a person otherwise.
   */
  lemma ReadingDecides<J>(envelope: Envelope<J>, now: int)
    ensures var outcome := Derive(Classify(envelope, now), {});
            && (outcome.Resumed? <==> Current(envelope, now) && Readable(envelope) && !MustReconcile(envelope))
            && (outcome.Deferred? <==> Current(envelope, now) && Readable(envelope) && MustReconcile(envelope))
            && (!outcome.Manual? ==> outcome.envelope == envelope)
  {
  }

  // ---------------------------------------------------------------- the in-memory store

  datatype WriteResult<J> =
    | Stored
    | Replaced(previous: Envelope<J>)
    | Duplicate(previous: Envelope<J>)
    | RefusedExpired

  predicate Durable<J>(result: WriteResult<J>) { !result.RefusedExpired? }

  type Entries<J> = map<string, Envelope<J>>

  function Read<J>(entries: Entries<J>, sessionId: string, now: int): ReadResult<J> {
    if sessionId in entries then Classify(entries[sessionId], now) else Missing
  }

  function Write<J>(entries: Entries<J>, envelope: Envelope<J>, now: int): (Entries<J>, WriteResult<J>) {
    if envelope.sessionId in entries && entries[envelope.sessionId].checkpointId == envelope.checkpointId then
      (entries, Duplicate(entries[envelope.sessionId]))
    else if PastExpiry(envelope, now) then (entries, RefusedExpired)
    else
      (entries[envelope.sessionId := envelope],
       if envelope.sessionId in entries then Replaced(entries[envelope.sessionId]) else Stored)
  }

  class InMemoryStore<J> {
    var entries: Entries<J>

    constructor ()
      ensures entries == map[]
    {
      entries := map[];
    }

    method ReadEnvelope(sessionId: string, now: int) returns (result: ReadResult<J>)
      ensures result == Read(entries, sessionId, now)
    {
      if sessionId !in entries {
        return Missing;
      }
      result := Classify(entries[sessionId], now);
    }

    method WriteEnvelope(envelope: Envelope<J>, now: int) returns (result: WriteResult<J>)
      modifies this
      ensures (entries, result) == Write(old(entries), envelope, now)
    {
      var previous: Option<Envelope<J>> := None;
      if envelope.sessionId in entries {
        previous := Some(entries[envelope.sessionId]);
        // whatever the classification, the stored envelope is there to compare with
        var found := Classify(previous.value, now);
        if found.envelope.checkpointId == envelope.checkpointId {
          return Duplicate(found.envelope);
        }
      }
      if PastExpiry(envelope, now) {
        return RefusedExpired;
      }
      entries := entries[envelope.sessionId := envelope];
      result := if previous.Some? then Replaced(previous.value) else Stored;
    }

    method ClearEntries()
      modifies this
      ensures entries == map[]
    {
      entries := map[];
    }
  }

  /**
    A durable answer means the session now holds an envelope of this id: the one written, unless
    one of the same id was there already. Nothing else moves, and a refusal moves nothing.
   */
  lemma DurableIsThere<J>(entries: Entries<J>, envelope: Envelope<J>, now: int)
    ensures var (after, result) := Write(entries, envelope, now);
            && (Durable(result) ==>
                  envelope.sessionId in after && after[envelope.sessionId].checkpointId == envelope.checkpointId)
            && (result.Duplicate? || result.RefusedExpired? ==> after == entries)
            && (Durable(result) && !result.Duplicate? ==> after[envelope.sessionId] == envelope)
            && (result.Duplicate? <==>
                envelope.sessionId in entries && entries[envelope.sessionId].checkpointId == envelope.checkpointId)
            && (forall other :: other != envelope.sessionId ==>
                  (other in after <==> other in entries) && (other in after ==> after[other] == entries[other]))
  {
  }

  // ---------------------------------------------------------------- over a history of calls

  datatype StoreCall<J> = WriteCall(envelope: Envelope<J>, now: int) | ClearCall

  /** What the store holds before the call at position `n`. */
  function EntriesBefore<J>(calls: seq<StoreCall<J>>, n: nat): Entries<J>
    requires n <= |calls|
  {
    if n == 0 then map[]
    else
      match calls[n - 1]
      case WriteCall(envelope, now) => Write(EntriesBefore(calls, n - 1), envelope, now).0
      case ClearCall => map[]
  }

  function ResultOf<J>(calls: seq<StoreCall<J>>, n: nat): WriteResult<J>
    requires n < |calls| && calls[n].WriteCall?
  {
    Write(EntriesBefore(calls, n), calls[n].envelope, calls[n].now).1
  }

  /** The call was answered as stored or replaced, so its envelope was kept for the session. */
  predicate KeptFor<J>(calls: seq<StoreCall<J>>, n: nat, sessionId: string)
    requires n < |calls|
  {
    && calls[n].WriteCall? && calls[n].envelope.sessionId == sessionId
    && (ResultOf(calls, n).Stored? || ResultOf(calls, n).Replaced?)
  }

  /** Between the two positions nothing was kept for the session and nothing was cleared. */
  ghost predicate Undisturbed<J>(calls: seq<StoreCall<J>>, from: nat, until: nat, sessionId: string)
    requires until <= |calls|
  {
    forall i :: from <= i < until ==> !KeptFor(calls, i, sessionId) && !calls[i].ClearCall?
  }

  lemma OtherCallsLeaveSession<J>(calls: seq<StoreCall<J>>, n: nat, sessionId: string)
    requires n < |calls| && !KeptFor(calls, n, sessionId) && !calls[n].ClearCall?
    ensures sessionId in EntriesBefore(calls, n + 1) <==> sessionId in EntriesBefore(calls, n)
    ensures sessionId in EntriesBefore(calls, n) ==>
              EntriesBefore(calls, n + 1)[sessionId] == EntriesBefore(calls, n)[sessionId]
  {
    DurableIsThere(EntriesBefore(calls, n), calls[n].envelope, calls[n].now);
  }

  /** In every history a session holds the envelope it kept last, until it keeps another or the store is cleared. */
  lemma {:induction false} SessionHoldsLastKept<J>(calls: seq<StoreCall<J>>, kept: nat, n: nat, sessionId: string)
    requires kept < n <= |calls| && KeptFor(calls, kept, sessionId) && Undisturbed(calls, kept + 1, n, sessionId)
    ensures sessionId in EntriesBefore(calls, n) && EntriesBefore(calls, n)[sessionId] == calls[kept].envelope
    decreases n
  {
    if n == kept + 1 {
      DurableIsThere(EntriesBefore(calls, kept), calls[kept].envelope, calls[kept].now);
    } else {
      SessionHoldsLastKept(calls, kept, n - 1, sessionId);
      OtherCallsLeaveSession(calls, n - 1, sessionId);
    }
  }

  /** A session that has kept nothing, since the start or the last clear, is missing. */
  lemma {:induction false} NothingKeptIsMissing<J>(calls: seq<StoreCall<J>>, from: nat, n: nat, sessionId: string)
    requires from <= n <= |calls| && (from > 0 ==> calls[from - 1].ClearCall?) && Undisturbed(calls, from, n, sessionId)
    ensures sessionId !in EntriesBefore(calls, n)
    decreases n
  {
    if n > from {
      NothingKeptIsMissing(calls, from, n - 1, sessionId);
      OtherCallsLeaveSession(calls, n - 1, sessionId);
    }
  }

  /**
    A retried write is safe at any later time: while the session keeps nothing else, a write of an envelope of
    the same id is answered with the one kept, changes nothing, and a read gives that one's classification.
   */
  lemma {:induction false} RetryIsDuplicate<J>(calls: seq<StoreCall<J>>, kept: nat, retry: nat, sessionId: string,
                                               now: int)
    requires kept < retry < |calls| && KeptFor(calls, kept, sessionId) && Undisturbed(calls, kept + 1, retry, sessionId)
    requires calls[retry].WriteCall? && calls[retry].envelope.sessionId == sessionId
    requires calls[retry].envelope.checkpointId == calls[kept].envelope.checkpointId
    ensures ResultOf(calls, retry) == Duplicate(calls[kept].envelope)
    ensures EntriesBefore(calls, retry + 1) == EntriesBefore(calls, retry)
    ensures Read(EntriesBefore(calls, retry + 1), sessionId, now) == Classify(calls[kept].envelope, now)
  {
    SessionHoldsLastKept(calls, kept, retry, sessionId);
  }
}
