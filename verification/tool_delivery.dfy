/**
  Tool delivery: keys that tell requests apart, a bounded retry decision, and the
  in-memory idempotency provider that remembers the first acknowledgement.
 */
module ToolDelivery {
  import opened Prelude
  import opened Text
  import opened UriEncoding

  // ---------------------------------------------------------------- keys

  datatype Identity = Identity(nodeAddress: string, actorId: string, toolName: string)

  datatype Parsed = Valid(value: string) | Invalid(field: string)

  /** The first blank field, in the order the builders check them. */
  function Validated(id: Identity, value: string): Parsed {
    if Blank(id.actorId) then Invalid("actorId")
    else if Blank(id.nodeAddress) then Invalid("nodeAddress")
    else if Blank(id.toolName) then Invalid("toolName")
    else Valid(value)
  }

  function Field(name: string, value: string): string { name + "=" + EncodeComponent(value) }

  function IdentityFields(id: Identity, last: string): string {
    Field("node", id.nodeAddress) + ":" + (Field("actor", id.actorId) + ":" + (Field("tool", id.toolName) + ":" + last))
  }

  function IdempotencyKey(id: Identity, requestId: string): Parsed {
    if Blank(requestId) then Invalid("requestId")
    else Validated(id, "actor-tool-delivery:key:" + IdentityFields(id, Field("request", requestId)))
  }

  function ActivationId(id: Identity, idempotencyKey: string): Parsed {
    if Blank(idempotencyKey) then Invalid("idempotencyKey")
    else Validated(id, "actor-tool-delivery:activation:" + IdentityFields(id, "key=" + idempotencyKey))
  }

  lemma FieldIsInjective(name: string, a: string, b: string)
    requires ':' !in name
    ensures ':' !in Field(name, a)
    ensures Field(name, a) == Field(name, b) ==> a == b
  {
    EncodingIsPlain(a);
    if Field(name, a) == Field(name, b) {
      assert Field(name, a)[|name| + 1..] == EncodeComponent(a) && Field(name, b)[|name| + 1..] == EncodeComponent(b);
      EncodingIsInjective(a, b);
    }
  }

  lemma OneField(name: string, a: string, rest: string, b: string, other: string)
    requires ':' !in name && Field(name, a) + ":" + rest == Field(name, b) + ":" + other
    ensures a == b && rest == other
  {
    FieldIsInjective(name, a, b);
    FieldIsInjective(name, b, a);
    FieldsSplit(Field(name, a), rest, Field(name, b), other);
  }

  lemma IdentityFieldsAreInjective(a: Identity, last: string, b: Identity, other: string)
    requires IdentityFields(a, last) == IdentityFields(b, other)
    ensures a == b && last == other
  {
    var toolA, toolB := Field("tool", a.toolName) + ":" + last, Field("tool", b.toolName) + ":" + other;
    var actorA, actorB := Field("actor", a.actorId) + ":" + toolA, Field("actor", b.actorId) + ":" + toolB;
    OneField("node", a.nodeAddress, actorA, b.nodeAddress, actorB);
    OneField("actor", a.actorId, toolA, b.actorId, toolB);
    OneField("tool", a.toolName, last, b.toolName, other);
  }

  /** Two requests share an idempotency key only if node, actor, tool and request are all the same. */
  lemma KeysTellRequestsApart(a: Identity, requestA: string, b: Identity, requestB: string)
    requires IdempotencyKey(a, requestA).Valid? && IdempotencyKey(a, requestA) == IdempotencyKey(b, requestB)
    ensures a == b && requestA == requestB
  {
    var head := "actor-tool-delivery:key:";
    var x, y := IdentityFields(a, Field("request", requestA)), IdentityFields(b, Field("request", requestB));
    assert x == (head + x)[|head|..] && y == (head + y)[|head|..];
    IdentityFieldsAreInjective(a, Field("request", requestA), b, Field("request", requestB));
    FieldIsInjective("request", requestA, requestB);
  }

  /** The same for activation ids, whose last field is a raw key. */
  lemma ActivationsTellKeysApart(a: Identity, keyA: string, b: Identity, keyB: string)
    requires ActivationId(a, keyA).Valid? && ActivationId(a, keyA) == ActivationId(b, keyB)
    ensures a == b && keyA == keyB
  {
    var head := "actor-tool-delivery:activation:";
    var x, y := IdentityFields(a, "key=" + keyA), IdentityFields(b, "key=" + keyB);
    assert x == (head + x)[|head|..] && y == (head + y)[|head|..];
    IdentityFieldsAreInjective(a, "key=" + keyA, b, "key=" + keyB);
    assert keyA == ("key=" + keyA)[4..] && keyB == ("key=" + keyB)[4..];
  }

  // ---------------------------------------------------------------- the retry decision

  /** A JavaScript number as far as the decision looks at it. */
  datatype Number = Finite(value: real) | Infinite(positive: bool) | NotANumber

  /** `Math.trunc` on a finite number. */
  function Truncated(x: real): int { if x >= 0.0 then x.Floor else -((-x).Floor) }

  datatype Attempt = Attempt(activationId: string, idempotencyKey: string, toolName: string, attempt: int,
                             ackTimeoutMs: int)

  predicate Positive(n: Number) { n.Finite? && n.value > 0.0 }

  datatype Command = Command(activationId: string, idempotencyKey: string, toolName: string, attempt: int)

  datatype Decision = Acked | Wait(remainingMs: int) | Failed(attempt: int, maxAttempts: int) | Reemit(command: Command)

  function Elapsed(elapsedMs: Number): int {
    if elapsedMs.Finite? then Max(0, Truncated(elapsedMs.value)) else 0
  }

  function Bound(maxAttempts: Number): int {
    if Positive(maxAttempts) then Truncated(maxAttempts.value) else 1
  }

  function OnAckTimeout(a: Attempt, elapsedMs: Number, acknowledged: bool, maxAttempts: Number): Decision {
    if acknowledged then Acked
    else if Max(0, a.ackTimeoutMs - Elapsed(elapsedMs)) > 0 then Wait(Max(0, a.ackTimeoutMs - Elapsed(elapsedMs)))
    else if a.attempt >= Bound(maxAttempts) then Failed(a.attempt, Bound(maxAttempts))
    else Reemit(Command(a.activationId, a.idempotencyKey, a.toolName, a.attempt + 1))
  }

  /** The attempt a re-emission starts. */
  function NextAttempt(a: Attempt, command: Command): Attempt {
    Attempt(command.activationId, command.idempotencyKey, command.toolName, command.attempt, a.ackTimeoutMs)
  }

  /** One look at the clock and at the provider, in the life of an activation. */
  datatype Check = Check(elapsedMs: Number, acknowledged: bool)

  datatype Ending = StillWaiting(attempt: Attempt) | EndedAcked | EndedFailed(last: int)

  /** The number of emissions made over a series of checks, the first emission included, and how it stands. */
  function Drive(a: Attempt, checks: seq<Check>, maxAttempts: Number): (nat, Ending)
    decreases |checks|
  {
    if checks == [] then (1, StillWaiting(a))
    else
      match OnAckTimeout(a, checks[0].elapsedMs, checks[0].acknowledged, maxAttempts)
      case Acked => (1, EndedAcked)
      case Failed(n, _) => (1, EndedFailed(n))
      case Wait(_) => Drive(a, checks[1..], maxAttempts)
      case Reemit(command) =>
        var (more, ending) := Drive(NextAttempt(a, command), checks[1..], maxAttempts);
        (1 + more, ending)
  }

  /**
    Bounded retry: from attempt `a`, however often and however strangely the clock is read, an activation
    is emitted at most once for each attempt up to the bound, and fails only at the bound and never early.
   */
  lemma {:induction false} RetriesAreBounded(a: Attempt, checks: seq<Check>, maxAttempts: Number)
    ensures var (emissions, ending) := Drive(a, checks, maxAttempts);
            && emissions <= 1 + Max(0, Bound(maxAttempts) - a.attempt)
            && (ending.EndedFailed? ==> emissions == 1 + Max(0, Bound(maxAttempts) - a.attempt)
                                        && ending.last == Max(a.attempt, Bound(maxAttempts)))
            && (ending.StillWaiting? ==> ending.attempt.attempt == a.attempt + emissions - 1
                                         && ending.attempt.activationId == a.activationId
                                         && ending.attempt.idempotencyKey == a.idempotencyKey)
    decreases |checks|
  {
    if checks != [] {
      match OnAckTimeout(a, checks[0].elapsedMs, checks[0].acknowledged, maxAttempts)
      case Acked =>
      case Failed(_, _) =>
      case Wait(_) => RetriesAreBounded(a, checks[1..], maxAttempts);
      case Reemit(command) => RetriesAreBounded(NextAttempt(a, command), checks[1..], maxAttempts);
    }
  }

  predicate Expires(a: Attempt, check: Check) { !check.acknowledged && Elapsed(check.elapsedMs) >= a.ackTimeoutMs }

  /** The driver ends: once as many checks as attempts are left find the timeout passed, the activation has failed. */
  lemma {:induction false} UnansweredRetriesEnd(a: Attempt, checks: seq<Check>, maxAttempts: Number)
    requires forall i :: 0 <= i < |checks| ==> Expires(a, checks[i])
    requires |checks| > Max(0, Bound(maxAttempts) - a.attempt)
    ensures Drive(a, checks, maxAttempts).1.EndedFailed?
    decreases |checks|
  {
    assert Expires(a, checks[0]);
    if a.attempt < Bound(maxAttempts) {
      var command := OnAckTimeout(a, checks[0].elapsedMs, false, maxAttempts).command;
      var rest := checks[1..];
      forall i | 0 <= i < |rest| ensures Expires(NextAttempt(a, command), rest[i]) {
        assert rest[i] == checks[i + 1];
        assert Expires(a, checks[i + 1]);
      }
      UnansweredRetriesEnd(NextAttempt(a, command), rest, maxAttempts);
    }
  }

  /** From attempt one the bound is the configured number of attempts, and at least one when that is under one. */
  lemma FirstAttemptBound(a: Attempt, checks: seq<Check>, maxAttempts: Number)
    requires a.attempt == 1
    ensures Drive(a, checks, maxAttempts).0 <= Max(1, Bound(maxAttempts))
  {
    RetriesAreBounded(a, checks, maxAttempts);
  }

  // ---------------------------------------------------------------- the idempotency provider

  datatype Claim = Claim(activationId: string, idempotencyKey: string, toolName: string)

  datatype Ack = Ack(activationId: string, idempotencyKey: string, toolName: string, output: Option<string>)

  datatype Activation = Activation(claim: Claim, ack: Option<Ack>)

  datatype ClaimResult = Claimed | Duplicate(first: Claim, ack: Option<Ack>)

  datatype AckResult = AckedWith(ack: Ack) | MissingActivation | Mismatch

  type Activations = map<string, Activation>

  function OnClaim(s: Activations, claim: Claim): (Activations, ClaimResult) {
    if claim.activationId in s then (s, Duplicate(s[claim.activationId].claim, s[claim.activationId].ack))
    else (s[claim.activationId := Activation(claim, None)], Claimed)
  }

  predicate Matches(activation: Activation, ack: Ack) {
    activation.claim.idempotencyKey == ack.idempotencyKey && activation.claim.toolName == ack.toolName
  }

  function OnAck(s: Activations, ack: Ack): (Activations, AckResult) {
    if ack.activationId !in s then (s, MissingActivation)
    else
      var existing := s[ack.activationId];
      if !Matches(existing, ack) then (s, Mismatch)
      else if existing.ack.Some? then (s, AckedWith(existing.ack.value))
      else (s[ack.activationId := existing.(ack := Some(ack))], AckedWith(ack))
  }

  class ActivationRecord {
    const claim: Claim
    var ack: Option<Ack>

    constructor (claim: Claim)
      ensures this.claim == claim && ack == None
    {
      this.claim := claim;
      ack := None;
    }
  }

  class InMemoryProvider {
    var activations: map<string, ActivationRecord>

    /** No record is filed twice. */
    ghost predicate Valid()
      reads this
    {
      forall a, b :: a in activations && b in activations && a != b ==> activations[a] != activations[b]
    }

    ghost function View(): Activations
      reads this, activations.Values
    {
      map id | id in activations :: Activation(activations[id].claim, activations[id].ack)
    }

    constructor ()
      ensures Valid() && View() == map[]
    {
      activations := map[];
    }

    method ClaimActivation(claim: Claim) returns (result: ClaimResult)
      requires Valid()
      modifies this
      ensures Valid() && (View(), result) == OnClaim(old(View()), claim)
    {
      if claim.activationId in activations {
        var existing := activations[claim.activationId];
        return Duplicate(existing.claim, existing.ack);
      }
      var record := new ActivationRecord(claim);
      activations := activations[claim.activationId := record];
      assert View() == old(View())[claim.activationId := Activation(claim, None)];
      return Claimed;
    }

    /** The acknowledgement is set on the record in place. */
    method Acknowledge(ack: Ack) returns (result: AckResult)
      requires Valid()
      modifies activations.Values
      ensures Valid() && (View(), result) == OnAck(old(View()), ack)
    {
      if ack.activationId !in activations {
        return MissingActivation;
      }
      var existing := activations[ack.activationId];
      if existing.claim.idempotencyKey != ack.idempotencyKey || existing.claim.toolName != ack.toolName {
        return Mismatch;
      }
      if existing.ack.Some? {
        return AckedWith(existing.ack.value);
      }
      existing.ack := Some(ack);
      assert View() == old(View())[ack.activationId := Activation(existing.claim, Some(ack))];
      return AckedWith(ack);
    }

    method Clear()
      modifies this
      ensures Valid() && View() == map[]
    {
      activations := map[];
    }
  }

  datatype ProviderCall = ClaimCall(claim: Claim) | AckCall(ack: Ack) | ClearCall

  datatype ProviderResult = OfClaim(result: ClaimResult) | OfAck(reply: AckResult) | OfClear

  function OnCall(s: Activations, call: ProviderCall): (Activations, ProviderResult) {
    match call
    case ClaimCall(claim) => (OnClaim(s, claim).0, OfClaim(OnClaim(s, claim).1))
    case AckCall(ack) => (OnAck(s, ack).0, OfAck(OnAck(s, ack).1))
    case ClearCall => (map[], OfClear)
  }

  /** The state before the call at position `n`. */
  function Before(calls: seq<ProviderCall>, n: nat): Activations
    requires n <= |calls|
  {
    if n == 0 then map[] else OnCall(Before(calls, n - 1), calls[n - 1]).0
  }

  function ResultAt(calls: seq<ProviderCall>, n: nat): ProviderResult
    requires n < |calls|
  {
    OnCall(Before(calls, n), calls[n]).1
  }

  predicate NoClear(calls: seq<ProviderCall>, from: nat, until: nat)
    requires from <= until <= |calls|
  {
    forall i :: from <= i < until ==> !calls[i].ClearCall?
  }

  /** An activation keeps its claim, and its acknowledgement once it has one. */
  predicate Remembers(s: Activations, later: Activations, id: string) {
    id in s ==> id in later && later[id].claim == s[id].claim && (s[id].ack.Some? ==> later[id].ack == s[id].ack)
  }

  lemma {:induction false} NothingIsForgotten(calls: seq<ProviderCall>, from: nat, until: nat, id: string)
    requires from <= until <= |calls| && NoClear(calls, from, until)
    ensures Remembers(Before(calls, from), Before(calls, until), id)
    decreases until
  {
    if from < until {
      NothingIsForgotten(calls, from, until - 1, id);
    }
  }

  predicate ClaimedAt(calls: seq<ProviderCall>, n: nat, id: string)
    requires n < |calls|
  {
    calls[n].ClaimCall? && calls[n].claim.activationId == id && ResultAt(calls, n) == OfClaim(Claimed)
  }

  /** In any interleaving of claims and acknowledgements no activation is claimed twice between two clears. */
  lemma ClaimedOnce(calls: seq<ProviderCall>, i: nat, j: nat, id: string)
    requires i < j < |calls| && NoClear(calls, i, j)
    ensures !(ClaimedAt(calls, i, id) && ClaimedAt(calls, j, id))
  {
    if ClaimedAt(calls, i, id) {
      assert id in Before(calls, i + 1);
      NothingIsForgotten(calls, i + 1, j, id);
    }
  }

  predicate AckAnswer(calls: seq<ProviderCall>, n: nat, ack: Ack)
    requires n < |calls|
  {
    || ResultAt(calls, n) == OfAck(AckedWith(ack))
    || (&& ResultAt(calls, n).OfClaim? && ResultAt(calls, n).result.Duplicate?
        && ResultAt(calls, n).result.ack == Some(ack))
  }

  /**
    The first matching acknowledgement is the one returned forever: until a clear, every later matching
    acknowledgement and every later claim of the activation answers with it.
   */
  lemma FirstAckForever(calls: seq<ProviderCall>, i: nat, j: nat, ack: Ack)
    requires i < j < |calls| && NoClear(calls, i, j)
    requires ResultAt(calls, i) == OfAck(AckedWith(ack))
    ensures calls[j].ClaimCall? && calls[j].claim.activationId == calls[i].ack.activationId ==> AckAnswer(calls, j, ack)
    ensures calls[j].AckCall? && calls[j].ack.activationId == calls[i].ack.activationId
            && calls[j].ack.idempotencyKey == calls[i].ack.idempotencyKey
            && calls[j].ack.toolName == calls[i].ack.toolName
            ==> AckAnswer(calls, j, ack)
  {
    var id := calls[i].ack.activationId;
    assert Before(calls, i + 1) == OnAck(Before(calls, i), calls[i].ack).0;
    NothingIsForgotten(calls, i + 1, j, id);
  }

  /** A retry under the same activation never reaches the tool again: only the first emission is claimed. */
  lemma RetriesAreClaimedOnce(calls: seq<ProviderCall>, i: nat, j: nat, a: Attempt, command: Command)
    requires i < j < |calls| && NoClear(calls, i, j)
    requires calls[i] == ClaimCall(Claim(a.activationId, a.idempotencyKey, a.toolName))
    requires exists elapsed, maxAttempts: Number :: OnAckTimeout(a, elapsed, false, maxAttempts) == Reemit(command)
    requires calls[j] == ClaimCall(Claim(command.activationId, command.idempotencyKey, command.toolName))
    ensures ResultAt(calls, j).result.Duplicate?
    ensures ResultAt(calls, i).result.Claimed? ==> ResultAt(calls, j).result.first == calls[j].claim
  {
    assert a.activationId in Before(calls, i + 1);
    NothingIsForgotten(calls, i + 1, j, a.activationId);
  }
}
