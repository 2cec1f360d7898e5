/**
  The actor context storage used where no AsyncLocalStorage exists. A run is split
  where the source can be interleaved: entering the frame, leaving the callback
  (with a value, an exception or a promise), and the promise settling later.
 */
module ContextStorage {
  import opened Prelude

  datatype Frame<T> = Frame(id: nat, context: T)

  datatype Storage<T> = Storage(current: Option<T>, frames: seq<Frame<T>>, rootPrevious: Option<T>,
                                callbackDepth: int, nextId: nat)

  predicate Overlaps<T>(s: Storage<T>, allowReentry: bool) {
    !allowReentry && s.callbackDepth == 0 && |s.frames| > 0
  }

  function EnterFrame<T>(s: Storage<T>, context: T): Storage<T> {
    Storage(Some(context), s.frames + [Frame(s.nextId, context)],
            if s.frames == [] then s.current else s.rootPrevious,
            s.callbackDepth + 1, s.nextId + 1)
  }

  function Drop<T>(frames: seq<Frame<T>>, id: nat): (kept: seq<Frame<T>>)
    ensures forall i :: 0 <= i < |kept| ==> kept[i] in frames
  {
    if frames == [] then []
    else if frames[0].id == id then frames[1..]
    else [frames[0]] + Drop(frames[1..], id)
  }

  predicate Live<T>(s: Storage<T>, id: nat) { exists i :: 0 <= i < |s.frames| && s.frames[i].id == id }

  function TopContext<T>(frames: seq<Frame<T>>, empty: Option<T>): Option<T> {
    if frames == [] then empty else Some(frames[|frames| - 1].context)
  }

  function Release<T>(s: Storage<T>, id: nat): Storage<T> {
    if !Live(s, id) then s
    else
      var frames := Drop(s.frames, id);
      s.(frames := frames, current := TopContext(frames, s.rootPrevious),
         rootPrevious := if frames == [] then None else s.rootPrevious)
  }

  function LeaveCallback<T>(s: Storage<T>): Storage<T> { s.(callbackDepth := s.callbackDepth - 1) }

  // ---------------------------------------------------------------- the storage object

  class FallbackContextStorage<T> {
    var current: Option<T>
    var frames: seq<Frame<T>>
    var rootPrevious: Option<T>
    var callbackDepth: int
    var nextId: nat

    ghost function View(): Storage<T>
      reads this
    {
      Storage(current, frames, rootPrevious, callbackDepth, nextId)
    }

    constructor ()
      ensures View() == Storage(None, [], None, 0, 0)
    {
      current, frames, rootPrevious, callbackDepth, nextId := None, [], None, 0, 0;
    }

    /** The part of a run before its callback: refused on overlap, with nothing changed. */
    method BeginRun(context: T, allowReentry: bool) returns (id: Option<nat>)
      modifies this
      ensures id.None? <==> Overlaps(old(View()), allowReentry)
      ensures View() == if id.None? then old(View()) else EnterFrame(old(View()), context)
      ensures id.Some? ==> id.value == old(nextId)
    {
      if !allowReentry && callbackDepth == 0 && |frames| > 0 {
        return None;
      }
      if |frames| == 0 {
        rootPrevious := current;
      }
      id := Some(nextId);
      frames := frames + [Frame(nextId, context)];
      nextId := nextId + 1;
      current := Some(context);
      callbackDepth := callbackDepth + 1;
    }

    method ReleaseFrame(id: nat)
      modifies this
      ensures View() == Release(old(View()), id)
    {
      var index := 0;
      while index < |frames| && frames[index].id != id
        invariant 0 <= index <= |frames|
        invariant forall i :: 0 <= i < index ==> frames[i].id != id
      {
        index := index + 1;
      }
      if index == |frames| {
        return;
      }
      DropAt(frames, index);
      frames := frames[..index] + frames[index + 1..];
      if |frames| == 0 {
        current := rootPrevious;
        rootPrevious := None;
        return;
      }
      current := Some(frames[|frames| - 1].context);
    }

    /** The callback returned a value: the frame goes at once, and the second release finds nothing. */
    method EndWithValue(id: nat)
      modifies this
      ensures View() == Release(LeaveCallback(Release(old(View()), id)), id)
    {
      ReleaseFrame(id);
      callbackDepth := callbackDepth - 1;
      ReleaseFrame(id);
    }

    method EndWithThrow(id: nat)
      modifies this
      ensures View() == Release(LeaveCallback(old(View())), id)
    {
      callbackDepth := callbackDepth - 1;
      ReleaseFrame(id);
    }

    /** The callback returned a promise: the frame stays until the promise settles. */
    method EndWithPromise()
      modifies this
      ensures View() == LeaveCallback(old(View()))
    {
      callbackDepth := callbackDepth - 1;
    }
  }

  lemma {:induction false} DropAt<T>(frames: seq<Frame<T>>, index: nat)
    requires index < |frames| && frames[index].id == frames[index].id
    requires forall i :: 0 <= i < index ==> frames[i].id != frames[index].id
    ensures Drop(frames, frames[index].id) == frames[..index] + frames[index + 1..]
  {
    if index > 0 {
      DropAt(frames[1..], index - 1);
      assert frames[1..][..index - 1] == frames[1..index];
      assert frames[..index] == [frames[0]] + frames[1..index];
    }
  }

  // ---------------------------------------------------------------- any interleaving

  /** The storage with the callbacks now on the call stack, the promises still out, and the releases so far. */
  datatype Machine<T> = Machine(storage: Storage<T>, stack: seq<nat>, pending: set<nat>, released: seq<nat>)

  datatype Event<T> =
    | Enter(context: T, allowReentry: bool)
    | ReturnValue
    | Throw
    | ReturnPromise
    | Settle(id: nat)

  function ReleaseLogged<T>(m: Machine<T>, id: nat): Machine<T> {
    if Live(m.storage, id) then m.(storage := Release(m.storage, id), released := m.released + [id]) else m
  }

  function Step<T>(m: Machine<T>, e: Event<T>): Machine<T> {
    match e
    case Enter(context, allowReentry) =>
      if Overlaps(m.storage, allowReentry) then m
      else m.(storage := EnterFrame(m.storage, context), stack := m.stack + [m.storage.nextId])
    case Settle(id) =>
      if id in m.pending then ReleaseLogged(m.(pending := m.pending - {id}), id) else m
    case _ =>
      if m.stack == [] then m
      else
        var id, outer := m.stack[|m.stack| - 1], m.(stack := m.stack[..|m.stack| - 1]);
        match e
        case ReturnValue =>
          var once := ReleaseLogged(outer, id);
          ReleaseLogged(once.(storage := LeaveCallback(once.storage)), id)
        case Throw => ReleaseLogged(outer.(storage := LeaveCallback(outer.storage)), id)
        case _ => outer.(storage := LeaveCallback(outer.storage), pending := outer.pending + {id})
  }

  function Start<T>(): Machine<T> { Machine(Storage(None, [], None, 0, 0), [], {}, []) }

  function Run<T>(events: seq<Event<T>>): Machine<T>
    decreases |events|
  {
    if events == [] then Start() else Step(Run(events[..|events| - 1]), events[|events| - 1])
  }

  ghost predicate DistinctNumbers(s: seq<nat>) {
    forall i, j :: 0 <= i < j < |s| ==> s[i] != s[j]
  }

  ghost predicate DistinctFrames<T>(frames: seq<Frame<T>>) {
    forall i, j :: 0 <= i < j < |frames| ==> frames[i].id != frames[j].id
  }

  /** A frame is live exactly while its callback is on the stack or its promise is out. */
  ghost predicate FramesAreOwed<T>(m: Machine<T>) {
    && DistinctFrames(m.storage.frames) && DistinctNumbers(m.stack)
    && (forall id: nat :: Live(m.storage, id) <==> id in m.stack || id in m.pending)
    && (forall id: nat :: id in m.stack ==> id !in m.pending)
  }

  /** Every frame ever entered is live, or was released exactly once. */
  ghost predicate ReleasedOnce<T>(m: Machine<T>) {
    && DistinctNumbers(m.released)
    && (forall id: nat :: id < m.storage.nextId <==> Live(m.storage, id) || id in m.released)
    && (forall id: nat :: Live(m.storage, id) ==> id !in m.released)
  }

  ghost predicate MachineInvariant<T>(m: Machine<T>) {
    && m.storage.current == TopContext(m.storage.frames, None)
    && m.storage.rootPrevious == None
    && m.storage.callbackDepth == |m.stack|
    && FramesAreOwed(m) && ReleasedOnce(m)
  }

  lemma {:induction false} DropFacts<T>(frames: seq<Frame<T>>, id: nat)
    requires DistinctFrames(frames)
    ensures DistinctFrames(Drop(frames, id))
    ensures forall f :: f in Drop(frames, id) <==> f in frames && f.id != id
  {
    if frames != [] {
      DropFacts(frames[1..], id);
      if frames[0].id == id {
        forall f | f in frames[1..] ensures f.id != id {
          var k :| 0 <= k < |frames[1..]| && frames[1..][k] == f;
          assert frames[0].id != frames[k + 1].id;
        }
      } else {
        var rest := Drop(frames[1..], id);
        forall j | 0 <= j < |rest| ensures frames[0].id != rest[j].id {
          var k :| 0 <= k < |frames[1..]| && frames[1..][k] == rest[j];
          assert frames[0].id != frames[k + 1].id;
        }
      }
    }
  }

  lemma LiveIsMember<T>(s: Storage<T>, id: nat)
    ensures Live(s, id) <==> exists f :: f in s.frames && f.id == id
  {
  }

  lemma LiveAfterRelease<T>(s: Storage<T>, id: nat)
    requires DistinctFrames(s.frames) && s.rootPrevious == None && s.current == TopContext(s.frames, None)
    ensures var next := Release(s, id);
            && DistinctFrames(next.frames) && next.rootPrevious == None
            && next.current == TopContext(next.frames, None)
            && (forall other: nat :: Live(next, other) <==> Live(s, other) && other != id)
  {
    DropFacts(s.frames, id);
    forall other: nat ensures Live(Release(s, id), other) <==> Live(s, other) && other != id {
      LiveIsMember(s, other);
      LiveIsMember(Release(s, id), other);
    }
  }

  lemma LiveAfterEnter<T>(s: Storage<T>, context: T)
    ensures forall id: nat :: Live(EnterFrame(s, context), id) <==> Live(s, id) || id == s.nextId
  {
    var frames := s.frames + [Frame(s.nextId, context)];
    assert frames[|s.frames|].id == s.nextId;
    forall i | 0 <= i < |s.frames| ensures frames[i] == s.frames[i] {
    }
  }

  lemma EnterKeeps<T>(m: Machine<T>, context: T, allowReentry: bool)
    requires MachineInvariant(m)
    ensures MachineInvariant(Step(m, Enter(context, allowReentry)))
  {
    LiveAfterEnter(m.storage, context);
    assert forall i :: 0 <= i < |m.storage.frames| ==> Live(m.storage, m.storage.frames[i].id);
    assert forall i :: 0 <= i < |m.stack| ==> m.stack[i] in m.stack;
  }

  /** Dropping a frame nobody owes any more keeps the books. */
  lemma ReleaseKeeps<T>(m: Machine<T>, before: Machine<T>, id: nat)
    requires MachineInvariant(before)
    requires m.storage == before.storage.(callbackDepth := m.storage.callbackDepth) && m.released == before.released
    requires m.storage.callbackDepth == |m.stack| && DistinctNumbers(m.stack)
    requires id in before.stack || id in before.pending
    requires forall other: nat :: (other in m.stack || other in m.pending) <==>
                                  (other in before.stack || other in before.pending) && other != id
    requires forall other: nat :: other in m.stack ==> other !in m.pending
    ensures MachineInvariant(ReleaseLogged(m, id))
    ensures !Live(ReleaseLogged(m, id).storage, id)
  {
    assert Live(before.storage, id);
    forall other: nat ensures Live(m.storage, other) <==> Live(before.storage, other) {
    }
    LiveAfterRelease(m.storage, id);
    assert (m.released + [id])[|m.released|] == id;
  }

  lemma PopStack(stack: seq<nat>)
    requires stack != [] && DistinctNumbers(stack)
    ensures var rest, top := stack[..|stack| - 1], stack[|stack| - 1];
            && DistinctNumbers(rest)
            && (forall n :: n in rest <==> n in stack && n != top)
  {
    var rest, top := stack[..|stack| - 1], stack[|stack| - 1];
    assert stack == rest + [top];
    assert forall i :: 0 <= i < |rest| ==> rest[i] == stack[i];
  }

  lemma LeaveKeeps<T>(m: Machine<T>, e: Event<T>)
    requires MachineInvariant(m) && (e.ReturnValue? || e.Throw? || e.ReturnPromise?)
    ensures MachineInvariant(Step(m, e))
  {
    if m.stack != [] {
      var id, outer := m.stack[|m.stack| - 1], m.(stack := m.stack[..|m.stack| - 1]);
      PopStack(m.stack);
      var left := outer.(storage := LeaveCallback(outer.storage));
      if e.ReturnPromise? {
        forall other: nat ensures Live(left.storage, other) <==> Live(m.storage, other) {
        }
      } else {
        ReleaseKeeps(left, m, id);
        if e.ReturnValue? {
          SecondReleaseFindsNothing(m, outer, id);
        }
      }
    }
  }

  /** Releasing before leaving the callback, and again after, is the one release. */
  lemma SecondReleaseFindsNothing<T>(m: Machine<T>, outer: Machine<T>, id: nat)
    requires MachineInvariant(m) && id in m.stack && outer == m.(stack := outer.stack)
    ensures var once := ReleaseLogged(outer, id);
            ReleaseLogged(once.(storage := LeaveCallback(once.storage)), id)
            == ReleaseLogged(outer.(storage := LeaveCallback(outer.storage)), id)
  {
    assert Live(m.storage, id);
    var left := LeaveCallback(outer.storage);
    assert Live(left, id);
    LiveAfterRelease(outer.storage, id);
    var once := ReleaseLogged(outer, id);
    assert LeaveCallback(once.storage).frames == once.storage.frames;
    assert !Live(LeaveCallback(once.storage), id);
  }

  lemma SettleKeeps<T>(m: Machine<T>, id: nat)
    requires MachineInvariant(m)
    ensures MachineInvariant(Step(m, Settle(id)))
  {
    if id in m.pending {
      ReleaseKeeps(m.(pending := m.pending - {id}), m, id);
    }
  }

  lemma StepKeeps<T>(m: Machine<T>, e: Event<T>)
    requires MachineInvariant(m)
    ensures MachineInvariant(Step(m, e))
  {
    match e
    case Enter(context, allowReentry) => EnterKeeps(m, context, allowReentry);
    case Settle(id) => SettleKeeps(m, id);
    case _ => LeaveKeeps(m, e);
  }

  /**
    Whatever order callbacks leave and promises settle in: the current context is the top frame's,
    or nothing when no frame is live, and every frame entered is live or was released exactly once.
   */
  lemma {:induction false} ContextFrames<T>(events: seq<Event<T>>)
    ensures MachineInvariant(Run(events))
    decreases |events|
  {
    if events != [] {
      ContextFrames(events[..|events| - 1]);
      StepKeeps(Run(events[..|events| - 1]), events[|events| - 1]);
    }
  }

  /** A run admitted from outside every callback, and not as reentry, finds no frame of anybody else. */
  lemma AdmittedTopLevelStartsClean<T>(events: seq<Event<T>>, context: T)
    requires Run(events).stack == []
    requires Step(Run(events), Enter(context, false)) != Run(events)
    ensures Run(events).storage.frames == [] && Run(events).pending == {}
    ensures Step(Run(events), Enter(context, false)).storage.current == Some(context)
  {
    ContextFrames(events);
    var m := Run(events);
    assert forall id :: id in m.pending ==> Live(m.storage, id);
  }

  lemma NoneOwedNoFrames<T>(m: Machine<T>)
    requires MachineInvariant(m) && m.stack == [] && m.pending == {}
    ensures m.storage.frames == []
  {
    FirstFramesLive(m.storage);
  }

  lemma FirstFramesLive<T>(s: Storage<T>)
    ensures |s.frames| >= 1 ==> Live(s, s.frames[0].id)
    ensures |s.frames| >= 2 ==> Live(s, s.frames[1].id)
    ensures |s.frames| >= 2 && DistinctFrames(s.frames) ==> s.frames[0].id != s.frames[1].id
  {
  }
}
