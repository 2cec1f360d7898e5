/**
  Spawning an actor on demand: concurrent callers share one promise per cache key,
  so a key is spawned successfully at most once and every caller gets the same actor.
 */
module NodeSpawning {
  import opened Prelude
  import opened Text
  import opened ActorAddresses

  type Key = string
  type Ref = nat

  /** An actor key, and for a parameterized actor the id its parameters resolve to. */
  function CacheKey(actorKey: string, instanceId: Option<string>): Key {
    if instanceId.Some? then actorKey + ":" + instanceId.value else actorKey
  }

  /** An id that an address can be minted for and parsed back from: the ids an instance can have. */
  predicate Admitted(id: string) { Mintable(id, Actor) && OneLine(id) }

  /** The id read back from the address of an instance, or none where minting or parsing throws. */
  function InstanceId(id: string, node: string): Option<string> {
    match Mint(id, Some(node), Actor)
    case None => None
    case Some(address) =>
      match Parse(address)
      case None => None
      case Some(parsed) => Some(parsed.id)
  }

  /** The id in a cache key is the instance's own, and exactly the admitted ids have a cache key at all. */
  lemma InstanceIdIsItself(id: string, node: string)
    requires IsSegment(node)
    ensures InstanceId(id, node) == if Admitted(id) then Some(id) else None
  {
    if Mintable(id, Actor) {
      MintedParsesBack(id, Some(node), Actor);
    }
  }

  /** An actor of the topology: its key, and whether its instances have ids of their own. */
  datatype ActorKind = ActorKind(key: string, parameterized: bool)

  predicate NamesInstance(actor: ActorKind, cacheKey: Key, instanceId: Option<string>) {
    && actor.parameterized == instanceId.Some? && (instanceId.Some? ==> Admitted(instanceId.value))
    && cacheKey == CacheKey(actor.key, instanceId)
  }

  ghost predicate Collide(a: ActorKind, b: ActorKind) {
    exists cacheKey, x, y :: NamesInstance(a, cacheKey, x) && NamesInstance(b, cacheKey, y)
  }

  /** A text that a colon and more can follow in an admitted id. */
  predicate Continues(text: string) { OneLine(text) && !(RESERVED <= text) && !Includes(text, SEGMENT) }

  /**
    One key, closed by a colon, opens the other, and what is left of the other can be an instance's id, or
    begin one if the other has instances too.
   */
  predicate Opens(a: ActorKind, b: ActorKind) {
    && a.parameterized && a.key + ":" <= b.key
    && (var rest := b.key[|a.key| + 1..]; if b.parameterized then Continues(rest) else Admitted(rest))
  }

  /** A text begins an admitted id with a colon after it exactly when it continues; the colon keeps the rest apart. */
  lemma ContinuedIsAdmitted(text: string, tail: string)
    ensures Admitted(text + ":" + tail) ==> Continues(text)
    ensures Continues(text) ==> Admitted(text + ":x")
  {
    var id := text + ":" + tail;
    assert text + (":" + tail) == id;
    if Admitted(id) {
      assert forall i :: 0 <= i < |text| ==> text[i] == id[i];
      assert RESERVED <= text ==> RESERVED <= id;
      if Includes(text, SEGMENT) {
        IncludesGrows(text, SEGMENT, ":" + tail);
      }
    }
    if Continues(text) {
      ShortestContinuation(text);
    }
  }

  lemma ShortestContinuation(text: string)
    requires Continues(text)
    ensures Admitted(text + ":x")
  {
    var id := text + ":x";
    assert id == text + ":" + "x" && id[|text|] == ':';
    assert forall i :: 0 <= i < |text| ==> id[i] == text[i];
    if Includes(id, SEGMENT) {
      IncludesBeforeColon(text, SEGMENT, "x");
    }
    if RESERVED <= id {
      ReservedBeforeColon(text);
    }
    assert ':' in id && ':' !in GUARDIAN;
  }

  lemma ReservedBeforeColon(text: string)
    requires RESERVED <= text + ":x"
    ensures RESERVED <= text
  {
    var id := text + ":x";
    assert id[|text|] == ':';
    forall i | 0 <= i < |RESERVED| ensures id[i] != ':' {
      assert id[i] == RESERVED[i];
    }
    assert |RESERVED| <= |text|;
    assert id[..|RESERVED|] == text[..|RESERVED|];
  }

  lemma XIsAdmitted()
    ensures Admitted("x")
  {
    assert !Includes("x"[1..], SEGMENT);
  }

  lemma OpeningCollides(a: ActorKind, b: ActorKind)
    requires Opens(a, b)
    ensures Collide(a, b) && Collide(b, a)
  {
    var rest := b.key[|a.key| + 1..];
    assert b.key == a.key + ":" + rest;
    var y := if b.parameterized then Some("x") else None;
    var x := Some(if b.parameterized then rest + ":x" else rest);
    if b.parameterized {
      ContinuedIsAdmitted(rest, "x");
      XIsAdmitted();
    }
    assert CacheKey(a.key, x) == CacheKey(b.key, y);
    assert NamesInstance(a, CacheKey(a.key, x), x) && NamesInstance(b, CacheKey(a.key, x), y);
  }

  /** A cache key that two actors share begins with the shorter key and a colon, and with the longer key. */
  lemma SharedKeyOpens(a: ActorKind, x: Option<string>, b: ActorKind, y: Option<string>, cacheKey: Key)
    requires NamesInstance(a, cacheKey, x) && NamesInstance(b, cacheKey, y)
    requires a.key != b.key && |a.key| <= |b.key|
    ensures Opens(a, b)
  {
    assert a.key == cacheKey[..|a.key|] && b.key == cacheKey[..|b.key|];
    assert |a.key| < |b.key|;
    assert b.key[..|a.key| + 1] == cacheKey[..|a.key| + 1] == a.key + ":";
    var rest := b.key[|a.key| + 1..];
    assert x.value == cacheKey[|a.key| + 1..];
    if b.parameterized {
      assert x.value == rest + ":" + y.value;
      ContinuedIsAdmitted(rest, y.value);
    } else {
      assert x.value == rest;
    }
  }

  /**
    Two actors share a cache key for some instances the runtime can have exactly when one of them is
    parameterized, its key closed by a colon opens the other's, and the rest of the other's can be, or begin,
    an instance's id. Two actors without parameters never do.
   */
  lemma CacheKeysCollideExactly(a: ActorKind, b: ActorKind)
    requires a.key != b.key
    ensures Collide(a, b) <==> Opens(a, b) || Opens(b, a)
  {
    if Opens(a, b) {
      OpeningCollides(a, b);
    } else if Opens(b, a) {
      OpeningCollides(b, a);
    } else if Collide(a, b) {
      var cacheKey, x, y :| NamesInstance(a, cacheKey, x) && NamesInstance(b, cacheKey, y);
      if |a.key| <= |b.key| {
        SharedKeyOpens(a, x, b, y, cacheKey);
      } else {
        SharedKeyOpens(b, y, a, x, cacheKey);
      }
    }
  }

  /** Instances of one actor never share a cache key, whatever their ids. */
  lemma InstancesKeepApart(actorKey: string, x: string, y: string)
    requires CacheKey(actorKey, Some(x)) == CacheKey(actorKey, Some(y))
    ensures x == y
  {
    var cacheKey := CacheKey(actorKey, Some(x));
    assert x == cacheKey[|actorKey| + 1..] && y == cacheKey[|actorKey| + 1..];
  }

  /** A trailing colon opens the key, but leaves an id no address can be minted for: these two never collide. */
  lemma EmptyRestKeepsApart()
    ensures "room" + ":" <= "room:" && !Collide(ActorKind("room", true), ActorKind("room:", false))
  {
    CacheKeysCollideExactly(ActorKind("room", true), ActorKind("room:", false));
    assert "room:"[5..] == "";
  }

  datatype PromiseState = LookingUp | Spawning | Resolved(ref: Ref) | Rejected

  datatype Promised = Promised(key: Key, address: string, tools: seq<string>, state: PromiseState)

  datatype Caller = Refused | Got(key: Key, ref: Ref) | Awaits(promise: nat)

  datatype Spawner = Spawner(actors: map<Key, Ref>, inFlight: map<Key, nat>, promises: seq<Promised>,
                             callers: seq<Caller>, toolAccess: map<string, seq<string>>, spawned: seq<Key>)

  function Empty(): Spawner { Spawner(map[], map[], [], [], map[], []) }

  datatype Event =
    /** `registered` is false where a required tool is missing or the address is refused: the call throws. */
    | Call(key: Key, address: string, tools: seq<string>, registered: bool)
    | LookupDone(key: Key, found: Option<Ref>)
    | LookupThrew(key: Key)
    | BehaviorThrew(key: Key)
    | SpawnDone(key: Key, ref: Ref)
    | SpawnThrew(key: Key)
    | Cleanup(key: Key)

  predicate At(s: Spawner, key: Key, state: PromiseState) {
    key in s.inFlight && s.inFlight[key] < |s.promises| && s.promises[s.inFlight[key]].state == state
  }

  predicate IsSettled(state: PromiseState) { state.Resolved? || state.Rejected? }

  function Become(s: Spawner, key: Key, state: PromiseState): Spawner
    requires key in s.inFlight && s.inFlight[key] < |s.promises|
  {
    var p := s.inFlight[key];
    s.(promises := s.promises[p := s.promises[p].(state := state)],
       actors := if state.Resolved? then s.actors[key := state.ref] else s.actors)
  }

  /** One uninterrupted stretch of code; an event that does not fit does nothing. */
  function Step(s: Spawner, e: Event): Spawner {
    match e
    case Call(key, address, tools, registered) =>
      if !registered then s.(callers := s.callers + [Refused])
      else if key in s.actors then s.(callers := s.callers + [Got(key, s.actors[key])])
      else if key in s.inFlight then s.(callers := s.callers + [Awaits(s.inFlight[key])])
      else s.(promises := s.promises + [Promised(key, address, tools, LookingUp)],
              inFlight := s.inFlight[key := |s.promises|],
              callers := s.callers + [Awaits(|s.promises|)])
    case LookupDone(key, found) =>
      if !At(s, key, LookingUp) then s
      else if found.Some? then Become(s, key, Resolved(found.value))
      else
        var promise := s.promises[s.inFlight[key]];
        Become(s, key, Spawning).(toolAccess := s.toolAccess[promise.address := promise.tools])
    case LookupThrew(key) => if At(s, key, LookingUp) then Become(s, key, Rejected) else s
    case BehaviorThrew(key) => if At(s, key, Spawning) then Become(s, key, Rejected) else s
    case SpawnDone(key, ref) =>
      if At(s, key, Spawning) then Become(s, key, Resolved(ref)).(spawned := s.spawned + [key]) else s
    case SpawnThrew(key) => if At(s, key, Spawning) then Become(s, key, Rejected) else s
    case Cleanup(key) =>
      if key in s.inFlight && s.inFlight[key] < |s.promises| && IsSettled(s.promises[s.inFlight[key]].state)
      then s.(inFlight := s.inFlight - {key}) else s
  }

  function Run(events: seq<Event>): Spawner
    decreases |events|
  {
    if events == [] then Empty() else Step(Run(events[..|events| - 1]), events[|events| - 1])
  }

  // ---------------------------------------------------------------- the two maps, edited in place

  class ActorSpawner {
    var actors: map<Key, Ref>
    var inFlight: map<Key, nat>
    var promises: seq<Promised>
    var callers: seq<Caller>
    var toolAccess: map<string, seq<string>>
    ghost var spawned: seq<Key>

    ghost function View(): Spawner
      reads this
    {
      Spawner(actors, inFlight, promises, callers, toolAccess, spawned)
    }

    constructor ()
      ensures View() == Empty()
    {
      actors, inFlight, promises, callers, toolAccess, spawned := map[], map[], [], [], map[], [];
    }

    /** A call up to its first await. */
    method Instance(key: Key, address: string, tools: seq<string>, registered: bool)
      modifies this
      ensures View() == Step(old(View()), Call(key, address, tools, registered))
    {
      if !registered {
        callers := callers + [Refused];
        return;
      }
      if key in actors {
        callers := callers + [Got(key, actors[key])];
        return;
      }
      if key !in inFlight {
        inFlight := inFlight[key := |promises|];
        promises := promises + [Promised(key, address, tools, LookingUp)];
      }
      callers := callers + [Awaits(inFlight[key])];
    }

    method Settle(key: Key, state: PromiseState)
      requires key in inFlight && inFlight[key] < |promises|
      modifies this
      ensures View() == Become(old(View()), key, state)
    {
      var p := inFlight[key];
      promises := promises[p := promises[p].(state := state)];
      if state.Resolved? {
        actors := actors[key := state.ref];
      }
    }

    method OnLookup(key: Key, found: Option<Ref>)
      requires key in inFlight && inFlight[key] < |promises| && promises[inFlight[key]].state == LookingUp
      modifies this
      ensures View() == Step(old(View()), LookupDone(key, found))
    {
      if found.Some? {
        Settle(key, Resolved(found.value));
      } else {
        var promise := promises[inFlight[key]];
        Settle(key, Spawning);
        toolAccess := toolAccess[promise.address := promise.tools];
      }
    }

    method OnSpawned(key: Key, ref: Ref)
      requires key in inFlight && inFlight[key] < |promises| && promises[inFlight[key]].state == Spawning
      modifies this
      ensures View() == Step(old(View()), SpawnDone(key, ref))
    {
      Settle(key, Resolved(ref));
      spawned := spawned + [key];
    }

    /** The creator's `finally`. */
    method Forget(key: Key)
      requires key in inFlight && inFlight[key] < |promises| && IsSettled(promises[inFlight[key]].state)
      modifies this
      ensures View() == Step(old(View()), Cleanup(key))
    {
      inFlight := inFlight - {key};
    }
  }

  // ---------------------------------------------------------------- exactly once

  /** Every promise that has not settled is the one in flight for its key, and its key has no actor yet. */
  ghost predicate OneInFlight(s: Spawner) {
    && (forall k :: k in s.inFlight ==> s.inFlight[k] < |s.promises| && s.promises[s.inFlight[k]].key == k)
    && (forall p :: 0 <= p < |s.promises| && !IsSettled(s.promises[p].state) ==>
          s.promises[p].key in s.inFlight && s.inFlight[s.promises[p].key] == p && s.promises[p].key !in s.actors)
  }

  ghost predicate SameActor(s: Spawner) {
    && (forall p :: 0 <= p < |s.promises| && s.promises[p].state.Resolved? ==>
          s.promises[p].key in s.actors && s.actors[s.promises[p].key] == s.promises[p].state.ref)
    && (forall c :: 0 <= c < |s.callers| && s.callers[c].Got? ==>
          s.callers[c].key in s.actors && s.actors[s.callers[c].key] == s.callers[c].ref)
    && (forall c :: 0 <= c < |s.callers| && s.callers[c].Awaits? ==> s.callers[c].promise < |s.promises|)
  }

  ghost predicate SpawnedOnce(s: Spawner) {
    && (forall i :: 0 <= i < |s.spawned| ==> s.spawned[i] in s.actors)
    && (forall i, j :: 0 <= i < j < |s.spawned| ==> s.spawned[i] != s.spawned[j])
  }

  ghost predicate Invariant(s: Spawner) { OneInFlight(s) && SameActor(s) && SpawnedOnce(s) }

  lemma BecomeKeeps(s: Spawner, key: Key, state: PromiseState)
    requires Invariant(s) && key in s.inFlight && !IsSettled(s.promises[s.inFlight[key]].state)
    ensures Invariant(Become(s, key, state))
  {
  }

  lemma AnsweredCallKeeps(s: Spawner, caller: Caller)
    requires Invariant(s)
    requires caller.Got? ==> caller.key in s.actors && s.actors[caller.key] == caller.ref
    requires caller.Awaits? ==> caller.promise < |s.promises|
    ensures Invariant(s.(callers := s.callers + [caller]))
  {
  }

  /** A call that starts a promise does so only when its key has neither an actor nor a promise in flight. */
  lemma FirstCallKeeps(s: Spawner, key: Key, address: string, tools: seq<string>)
    requires Invariant(s) && key !in s.actors && key !in s.inFlight
    ensures Invariant(s.(promises := s.promises + [Promised(key, address, tools, LookingUp)],
                         inFlight := s.inFlight[key := |s.promises|]))
  {
  }

  lemma CallKeeps(s: Spawner, key: Key, address: string, tools: seq<string>, registered: bool)
    requires Invariant(s)
    ensures Invariant(Step(s, Call(key, address, tools, registered)))
  {
    if !registered {
      AnsweredCallKeeps(s, Refused);
    } else if key in s.actors {
      AnsweredCallKeeps(s, Got(key, s.actors[key]));
    } else if key in s.inFlight {
      AnsweredCallKeeps(s, Awaits(s.inFlight[key]));
    } else {
      FirstCallKeeps(s, key, address, tools);
      AnsweredCallKeeps(s.(promises := s.promises + [Promised(key, address, tools, LookingUp)],
                           inFlight := s.inFlight[key := |s.promises|]), Awaits(|s.promises|));
    }
  }

  lemma StepKeeps(s: Spawner, e: Event)
    requires Invariant(s)
    ensures Invariant(Step(s, e))
  {
    match e
    case Call(key, address, tools, registered) => CallKeeps(s, key, address, tools, registered);
    case LookupDone(key, found) =>
      if At(s, key, LookingUp) {
        BecomeKeeps(s, key, if found.Some? then Resolved(found.value) else Spawning);
      }
    case LookupThrew(key) => if At(s, key, LookingUp) { BecomeKeeps(s, key, Rejected); }
    case BehaviorThrew(key) => if At(s, key, Spawning) { BecomeKeeps(s, key, Rejected); }
    case SpawnDone(key, ref) => if At(s, key, Spawning) { BecomeKeeps(s, key, Resolved(ref)); }
    case SpawnThrew(key) => if At(s, key, Spawning) { BecomeKeeps(s, key, Rejected); }
    case Cleanup(key) =>
  }

  lemma {:induction false} InvariantForever(events: seq<Event>)
    ensures Invariant(Run(events))
    decreases |events|
  {
    if events != [] {
      InvariantForever(events[..|events| - 1]);
      StepKeeps(Run(events[..|events| - 1]), events[|events| - 1]);
    }
  }

  /** What a caller has been answered: the key and the actor. */
  function Answer(s: Spawner, caller: Caller): Option<(Key, Ref)> {
    match caller
    case Refused => None
    case Got(key, ref) => Some((key, ref))
    case Awaits(p) =>
      if p < |s.promises| && s.promises[p].state.Resolved? then Some((s.promises[p].key, s.promises[p].state.ref))
      else None
  }

  /** An answer is the actor filed under its key. */
  lemma AnswerIsFiled(s: Spawner, c: nat)
    requires SameActor(s) && c < |s.callers| && Answer(s, s.callers[c]).Some?
    ensures var (key, ref) := Answer(s, s.callers[c]).value; key in s.actors && s.actors[key] == ref
  {
  }

  /** In every interleaving a key is spawned at most once, and its successful callers all hold the same actor. */
  lemma SpawnExactlyOnce(events: seq<Event>)
    ensures forall i, j :: 0 <= i < j < |Run(events).spawned| ==> Run(events).spawned[i] != Run(events).spawned[j]
    ensures forall a, b :: 0 <= a < |Run(events).callers| && 0 <= b < |Run(events).callers| ==>
              AnswersAgree(Answer(Run(events), Run(events).callers[a]), Answer(Run(events), Run(events).callers[b]))
  {
    var s := Run(events);
    InvariantForever(events);
    forall a, b | 0 <= a < |s.callers| && 0 <= b < |s.callers|
      ensures AnswersAgree(Answer(s, s.callers[a]), Answer(s, s.callers[b]))
    {
      if Answer(s, s.callers[a]).Some? && Answer(s, s.callers[b]).Some? {
        AnswerIsFiled(s, a);
        AnswerIsFiled(s, b);
      }
    }
  }

  predicate AnswersAgree(x: Option<(Key, Ref)>, y: Option<(Key, Ref)>) {
    x.Some? && y.Some? && x.value.0 == y.value.0 ==> x == y
  }

  lemma StepKeepsActors(s: Spawner, e: Event, key: Key)
    requires Invariant(s) && key in s.actors
    ensures key in Step(s, e).actors && Step(s, e).actors[key] == s.actors[key]
  {
  }

  lemma StepKeepsAnswers(s: Spawner, e: Event, c: nat)
    requires Invariant(s) && c < |s.callers|
    ensures |s.callers| <= |Step(s, e).callers| && Step(s, e).callers[c] == s.callers[c]
    ensures Answer(s, s.callers[c]).Some? ==> Answer(Step(s, e), s.callers[c]) == Answer(s, s.callers[c])
  {
  }

  /**
    Of two moments of a run: the actor filed under a key at the first is filed there at the second, and what
    a caller was answered at the first is its answer at the second.
   */
  lemma {:induction false} AnswersAreStable(events: seq<Event>, n: nat, key: Key, c: nat)
    requires n <= |events|
    ensures var early, late := Run(events[..n]), Run(events);
            && (key in early.actors ==> key in late.actors && late.actors[key] == early.actors[key])
            && (c < |early.callers| ==> c < |late.callers| && late.callers[c] == early.callers[c])
            && (c < |early.callers| && Answer(early, early.callers[c]).Some? ==>
                  Answer(late, late.callers[c]) == Answer(early, early.callers[c]))
    decreases |events|
  {
    if n == |events| {
      assert events[..n] == events;
    } else {
      var before := events[..|events| - 1];
      assert before[..n] == events[..n];
      AnswersAreStable(before, n, key, c);
      InvariantForever(before);
      if key in Run(before).actors {
        StepKeepsActors(Run(before), events[|events| - 1], key);
      }
      if c < |Run(before).callers| {
        StepKeepsAnswers(Run(before), events[|events| - 1], c);
      }
    }
  }

  /** A failed spawn does not poison its key: once cleaned up, the next call starts over. */
  lemma FailureCanBeRetried(s: Spawner, key: Key, address: string, tools: seq<string>)
    requires Invariant(s) && At(s, key, Rejected) && key !in s.actors
    ensures var next := Step(Step(s, Cleanup(key)), Call(key, address, tools, true));
            && At(next, key, LookingUp) && next.inFlight[key] == |s.promises|
            && next.callers == s.callers + [Awaits(|s.promises|)]
  {
  }

  /** The first actor of a cache key spawned, its promise forgotten, then a call for another actor. */
  function MisdirectedCall(cacheKey: Key, address: string, ref: Ref, other: string): seq<Event> {
    [Call(cacheKey, address, [], true), LookupDone(cacheKey, None), SpawnDone(cacheKey, ref), Cleanup(cacheKey),
     Call(cacheKey, other, [], true)]
  }

  /**
    What a collision does: after one of two colliding actors was spawned, a call for the other is answered
    with it. The other's address is never looked up and never spawned.
   */
  lemma CollisionMisdirects(a: ActorKind, b: ActorKind, address: string, ref: Ref, other: string)
    returns (cacheKey: Key)
    requires a.key != b.key && (Opens(a, b) || Opens(b, a))
    ensures exists x, y :: NamesInstance(a, cacheKey, x) && NamesInstance(b, cacheKey, y)
    ensures var s := Run(MisdirectedCall(cacheKey, address, ref, other));
            && s.callers == [Awaits(0), Got(cacheKey, ref)]
            && s.promises == [Promised(cacheKey, address, [], Resolved(ref))]
  {
    CacheKeysCollideExactly(a, b);
    cacheKey :| exists x, y :: NamesInstance(a, cacheKey, x) && NamesInstance(b, cacheKey, y);
    MisdirectedRun(cacheKey, address, ref, other);
  }

  lemma MisdirectedRun(cacheKey: Key, address: string, ref: Ref, other: string)
    ensures var s := Run(MisdirectedCall(cacheKey, address, ref, other));
            && s.callers == [Awaits(0), Got(cacheKey, ref)]
            && s.promises == [Promised(cacheKey, address, [], Resolved(ref))]
  {
    RunFive(MisdirectedCall(cacheKey, address, ref, other));
  }

  lemma RunFive(events: seq<Event>)
    requires |events| == 5
    ensures Run(events) == Step(Step(Step(Step(Step(Empty(), events[0]), events[1]), events[2]), events[3]), events[4])
  {
    RunTwoMore(events, 0);
    RunTwoMore(events, 2);
    RunOneMore(events, 4);
    assert events[..5] == events && events[..0] == [];
  }

  lemma RunTwoMore(events: seq<Event>, n: nat)
    requires n + 2 <= |events|
    ensures Run(events[..n + 2]) == Step(Step(Run(events[..n]), events[n]), events[n + 1])
  {
    RunOneMore(events, n);
    RunOneMore(events, n + 1);
  }

  lemma RunOneMore(events: seq<Event>, n: nat)
    requires n < |events|
    ensures Run(events[..n + 1]) == Step(Run(events[..n]), events[n])
  {
    assert events[..n + 1][..n] == events[..n];
  }

  /** Seen concretely: the actor "room:a" spawned as 7, then instance "a" of "room" asked for and answered 7. */
  lemma RoomAnsweredWithRoomA()
    ensures Opens(ActorKind("room", true), ActorKind("room:a", false))
    ensures CacheKey("room", Some("a")) == CacheKey("room:a", None)
    ensures var s := Run(MisdirectedCall(CacheKey("room:a", None), "actor://node/room:a", 7, "actor://node/a"));
            && s.callers == [Awaits(0), Got(CacheKey("room", Some("a")), 7)]
            && s.promises == [Promised(CacheKey("room:a", None), "actor://node/room:a", [], Resolved(7))]
  {
    assert "room" + ":" == "room:a"[..5] && "room:a"[5..] == "a";
    assert !Includes("a"[1..], SEGMENT);
    MisdirectedRun("room:a", "actor://node/room:a", 7, "actor://node/a");
  }
}
