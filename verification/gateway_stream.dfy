/**
  The stream the source accepts against the log the gateway numbered: for any loss,
  duplication and reordering of the log, the source never shows a snapshot the log
  did not have at that point, and one undisturbed resync answer brings it level.
 */
module GatewayStream {
  import opened Prelude
  import opened GatewaySource

  /** A gateway log numbers its entries from one. */
  function FrameAt<P>(log: seq<Body<P>>, n: int): Frame<P>
    requires 1 <= n <= |log|
  {
    StreamFrame(n, log[n - 1])
  }

  /** The frames numbered from `from` up to and including `upto`. */
  function Frames<P>(log: seq<Body<P>>, from: int, upto: int): (frames: seq<Frame<P>>)
    requires 1 <= from && from - 1 <= upto <= |log|
    ensures |frames| == upto - from + 1
    ensures forall i :: 0 <= i < |frames| ==> frames[i] == FrameAt(log, from + i)
    decreases upto - from + 1
  {
    if from > upto then [] else Frames(log, from, upto - 1) + [FrameAt(log, upto)]
  }

  function LatestSnapshot<P>(log: seq<Body<P>>): Option<P> {
    if log == [] then None
    else if log[|log| - 1].Snapshot? then Some(log[|log| - 1].projection)
    else LatestSnapshot(log[..|log| - 1])
  }

  predicate InLog<P(==)>(log: seq<Body<P>>, frame: Frame<P>) {
    frame.StreamFrame? && 1 <= frame.sequence <= |log| && log[frame.sequence - 1] == frame.body
  }

  /** The network may lose, repeat and reorder the log's frames; it does not invent any. */
  predicate FromLog<P(==)>(log: seq<Body<P>>, e: Event<P>) {
    e.FromServer? && e.frame.StreamFrame? ==> InLog(log, e.frame)
  }

  predicate Follows<P>(log: seq<Body<P>>, before: int, n: int)
    requires 1 <= n <= |log|
  {
    before < n && (n == before + 1 || log[n - 1].Snapshot?)
  }

  /** Accepted numbers climb; each is the successor of the one before or lands on a snapshot. */
  ghost predicate AcceptedInOrder<P(!new)>(log: seq<Body<P>>, accepted: seq<int>) {
    && (forall i :: 0 <= i < |accepted| ==> 1 <= accepted[i] <= |log|)
    && (accepted != [] ==> Follows(log, 0, accepted[0]))
    && (forall i :: 0 < i < |accepted| ==> Follows(log, accepted[i - 1], accepted[i]))
  }

  ghost predicate StreamInvariant<P(!new)>(log: seq<Body<P>>, s: Source<P>) {
    && 0 <= s.lastSequence <= |log|
    && s.lastSequence == (if s.accepted == [] then 0 else s.accepted[|s.accepted| - 1])
    && s.snapshot == LatestSnapshot(log[..s.lastSequence])
    && AcceptedInOrder(log, s.accepted)
  }

  /** No event but a sequenced frame touches the stream part of the source. */
  predicate SameStream<P(==)>(s: Source<P>, next: Source<P>) {
    next.lastSequence == s.lastSequence && next.snapshot == s.snapshot && next.accepted == s.accepted
  }

  lemma OtherEventsLeaveStream<P>(s: Source<P>, e: Event<P>, readyOnStatus: bool)
    requires !(e.FromServer? && e.frame.StreamFrame?)
    ensures SameStream(s, Step(s, e, readyOnStatus))
  {
  }

  lemma OrderGrows<P(!new)>(log: seq<Body<P>>, accepted: seq<int>, n: int)
    requires AcceptedInOrder(log, accepted) && 1 <= n <= |log|
    requires Follows(log, if accepted == [] then 0 else accepted[|accepted| - 1], n)
    ensures AcceptedInOrder(log, accepted + [n])
  {
  }

  lemma FrameKeepsStream<P(!new)>(log: seq<Body<P>>, s: Source<P>, frame: Frame<P>, readyOnStatus: bool)
    requires StreamInvariant(log, s) && InLog(log, frame)
    ensures var next := OnFrame(s, frame, readyOnStatus);
            && StreamInvariant(log, next)
            && (frame.sequence == s.lastSequence + 1
                || (s.resyncInProgress && frame.body.Snapshot? && frame.sequence > s.lastSequence)
                ==> next.lastSequence == frame.sequence)
  {
    var n := frame.sequence;
    if AcceptSequence(s, frame).1 {
      OrderGrows(log, s.accepted, n);
      assert log[..n][|log[..n]| - 1] == frame.body && log[..n][..n - 1] == log[..n - 1];
    }
  }

  /**
    Stream refinement: whatever the network loses, repeats or reorders, and whatever else happens,
    accepted numbers strictly increase, every jump lands on a snapshot, and the current snapshot
    is the latest one of the log prefix up to the last accepted number.
   */
  lemma {:induction false} StreamRefinement<P(!new)>(log: seq<Body<P>>, events: seq<Event<P>>, readyOnStatus: bool)
    requires forall e :: e in events ==> FromLog(log, e)
    ensures StreamInvariant(log, Run(events, readyOnStatus))
    decreases |events|
  {
    if events != [] {
      var k := |events| - 1;
      var before := Run(events[..k], readyOnStatus);
      StreamRefinement(log, events[..k], readyOnStatus);
      assert FromLog(log, events[k]);
      if events[k].FromServer? && events[k].frame.StreamFrame? {
        FrameKeepsStream(log, before, events[k].frame, readyOnStatus);
      } else {
        OtherEventsLeaveStream(before, events[k], readyOnStatus);
      }
    }
  }

  // ---------------------------------------------------------------- the gateway's resync answer

  function FramesFrom<P>(frames: seq<Frame<P>>, from: int): seq<Frame<P>> {
    if frames == [] then []
    else (if frames[0].StreamFrame? && frames[0].sequence >= from then [frames[0]] else [])
         + FramesFrom(frames[1..], from)
  }

  /** The replay buffer keeps the last `size` frames of the log. */
  function Retained<P>(log: seq<Body<P>>, size: nat): seq<Frame<P>> {
    Frames(log, if size >= |log| then 1 else |log| - size + 1, |log|)
  }

  predicate CanReplay<P>(frames: seq<Frame<P>>, from: int) {
    frames != [] && forall i :: 0 <= i < |frames| ==> frames[i].StreamFrame? && frames[i].sequence == from + i
  }

  datatype Answer<P> = Answer(log: seq<Body<P>>, middle: seq<Frame<P>>) {
    /** The answer is bracketed by two status frames, the last one the stream's own status. */
    function Sent(final: StatusState): seq<Frame<P>> { [StatusFrame(Replaying)] + middle + [StatusFrame(final)] }
  }

  /** A full-mode stream answers with the retained frames when they reach back far enough, else with a new snapshot. */
  function ResyncAnswer<P>(log: seq<Body<P>>, size: nat, from: int, now: P): Answer<P> {
    var replay := FramesFrom(Retained(log, size), from);
    if CanReplay(replay, from) then Answer(log, replay)
    else Answer(log + [Snapshot(now)], [StreamFrame(|log| + 1, Snapshot(now))])
  }

  lemma {:induction false} FramesFromIsSuffix<P(!new)>(frames: seq<Frame<P>>, first: int, from: int)
    requires forall i :: 0 <= i < |frames| ==> frames[i].StreamFrame? && frames[i].sequence == first + i
    ensures FramesFrom(frames, from) ==
            if from <= first then frames else if from - first >= |frames| then [] else frames[from - first..]
  {
    if frames != [] {
      FramesFromIsSuffix(frames[1..], first + 1, from);
    }
  }

  /** What the gateway can replay from a client's next number is exactly the rest of the log. */
  lemma ReplayIsRest<P(!new)>(log: seq<Body<P>>, size: nat, from: int)
    requires 1 <= from <= |log| + 1
    ensures var replay := FramesFrom(Retained(log, size), from);
            && (CanReplay(replay, from) <==> from <= |log| && |log| - size < from)
            && (CanReplay(replay, from) ==> replay == Frames(log, from, |log|))
  {
    var retained := Retained(log, size);
    var first := if size >= |log| then 1 else |log| - size + 1;
    FramesFromIsSuffix(retained, first, from);
    var replay := FramesFrom(retained, from);
    if first <= from <= |log| {
      assert replay == Frames(log, from, |log|);
    } else if replay != [] {
      assert replay[0].sequence == first;
    }
  }

  function Deliver<P>(s: Source<P>, frames: seq<Frame<P>>, readyOnStatus: bool): Source<P>
    decreases |frames|
  {
    if frames == [] then s
    else OnFrame(Deliver(s, frames[..|frames| - 1], readyOnStatus), frames[|frames| - 1], readyOnStatus)
  }

  lemma DeliverOneMore<P>(s: Source<P>, frames: seq<Frame<P>>, frame: Frame<P>, readyOnStatus: bool)
    ensures Deliver(s, frames + [frame], readyOnStatus) ==
            OnFrame(Deliver(s, frames, readyOnStatus), frame, readyOnStatus)
  {
    assert (frames + [frame])[..|frames + [frame]| - 1] == frames;
  }

  lemma {:induction false} DeliverAppend<P>(s: Source<P>, a: seq<Frame<P>>, b: seq<Frame<P>>, readyOnStatus: bool)
    ensures Deliver(s, a + b, readyOnStatus) == Deliver(Deliver(s, a, readyOnStatus), b, readyOnStatus)
    decreases |b|
  {
    if b == [] {
      assert a + b == a;
    } else {
      assert (a + b)[..|a + b| - 1] == a + b[..|b| - 1];
      DeliverAppend(s, a, b[..|b| - 1], readyOnStatus);
    }
  }

  /** A source in step with the log whose last accepted frame is numbered `last`. */
  ghost predicate Level<P(!new)>(log: seq<Body<P>>, s: Source<P>, last: int) {
    StreamInvariant(log, s) && s.lastSequence == last
  }

  lemma NextFrameIsAccepted<P(!new)>(log: seq<Body<P>>, s: Source<P>, next: nat, readyOnStatus: bool)
    requires Level(log, s, next - 1) && 1 <= next <= |log|
    ensures Level(log, OnFrame(s, FrameAt(log, next), readyOnStatus), next)
  {
    FrameKeepsStream(log, s, FrameAt(log, next), readyOnStatus);
  }

  /** Frames in unbroken order are all accepted, whatever the resync flag says. */
  lemma {:induction false} InOrderIsAccepted<P(!new)>(log: seq<Body<P>>, s: Source<P>, upto: nat, readyOnStatus: bool)
    requires Level(log, s, s.lastSequence) && s.lastSequence <= upto <= |log|
    ensures Level(log, Deliver(s, Frames(log, s.lastSequence + 1, upto), readyOnStatus), upto)
    decreases upto - s.lastSequence
  {
    var frames := Frames(log, s.lastSequence + 1, upto);
    if s.lastSequence < upto {
      InOrderIsAccepted(log, s, upto - 1, readyOnStatus);
      var earlier := Frames(log, s.lastSequence + 1, upto - 1);
      DeliverOneMore(s, earlier, FrameAt(log, upto), readyOnStatus);
      NextFrameIsAccepted(log, Deliver(s, earlier, readyOnStatus), upto, readyOnStatus);
    } else {
      assert frames == [];
    }
  }

  lemma LongerLog<P(!new)>(log: seq<Body<P>>, body: Body<P>, s: Source<P>)
    requires StreamInvariant(log, s)
    ensures StreamInvariant(log + [body], s)
  {
    assert (log + [body])[..s.lastSequence] == log[..s.lastSequence];
  }

  /** The middle of the answer, met while the flag stands, brings the source level with the gateway. */
  lemma MiddleConverges<P(!new)>(log: seq<Body<P>>, s: Source<P>, size: nat, now: P, readyOnStatus: bool)
    requires StreamInvariant(log, s) && s.resyncInProgress
    ensures var answer := ResyncAnswer(log, size, s.lastSequence + 1, now);
            var level := Deliver(s, answer.middle, readyOnStatus);
            StreamInvariant(answer.log, level) && level.lastSequence == |answer.log|
  {
    var from := s.lastSequence + 1;
    ReplayIsRest(log, size, from);
    if from <= |log| && |log| - size < from {
      InOrderIsAccepted(log, s, |log|, readyOnStatus);
    } else {
      var frame := StreamFrame(|log| + 1, Snapshot(now));
      LongerLog(log, frame.body, s);
      DeliverOneMore(s, [], frame, readyOnStatus);
      assert [] + [frame] == [frame];
      FrameKeepsStream(log + [frame.body], s, frame, readyOnStatus);
    }
  }

  lemma StatusKeepsStream<P(!new)>(log: seq<Body<P>>, s: Source<P>, state: StatusState, readyOnStatus: bool)
    requires StreamInvariant(log, s)
    ensures var next := OnFrame(s, StatusFrame(state), readyOnStatus);
            && StreamInvariant(log, next) && SameStream(s, next)
            && next.resyncInProgress == (s.resyncInProgress && state == Replaying)
  {
  }

  lemma DeliverBracketed<P>(s: Source<P>, answer: Answer<P>, final: StatusState, readyOnStatus: bool)
    ensures Deliver(s, answer.Sent(final), readyOnStatus) ==
            OnFrame(Deliver(OnFrame(s, StatusFrame(Replaying), readyOnStatus), answer.middle, readyOnStatus),
                    StatusFrame(final), readyOnStatus)
  {
    var none: seq<Frame<P>> := [];
    DeliverOneMore(s, none, StatusFrame(Replaying), readyOnStatus);
    assert none + [StatusFrame(Replaying)] == [StatusFrame(Replaying)];
    DeliverAppend(s, [StatusFrame(Replaying)], answer.middle, readyOnStatus);
    DeliverOneMore(s, [StatusFrame(Replaying)] + answer.middle, StatusFrame(final), readyOnStatus);
  }

  /**
    Recovery: from any state a faithful run can reach, while its resync is in progress, one answer of
    the gateway delivered undisturbed brings the source level with the gateway's log, by replay
    when the buffer reaches back far enough and by a jump onto a new snapshot when it does not.
   */
  lemma ResyncConverges<P(!new)>(log: seq<Body<P>>, s: Source<P>, size: nat, now: P, final: StatusState,
                                 readyOnStatus: bool)
    requires StreamInvariant(log, s) && s.resyncInProgress
    ensures var answer := ResyncAnswer(log, size, s.lastSequence + 1, now);
            var level := Deliver(s, answer.Sent(final), readyOnStatus);
            && StreamInvariant(answer.log, level)
            && level.lastSequence == |answer.log| && level.snapshot == LatestSnapshot(answer.log)
            && (final != Replaying ==> !level.resyncInProgress)
  {
    var answer := ResyncAnswer(log, size, s.lastSequence + 1, now);
    var replaying := OnFrame(s, StatusFrame(Replaying), readyOnStatus);
    StatusKeepsStream(log, s, Replaying, readyOnStatus);
    MiddleConverges(log, replaying, size, now, readyOnStatus);
    var level := Deliver(replaying, answer.middle, readyOnStatus);
    StatusKeepsStream(answer.log, level, final, readyOnStatus);
    DeliverBracketed(s, answer, final, readyOnStatus);
    assert answer.log[..|answer.log|] == answer.log;
  }

  // ---------------------------------------------------------------- the trace source

  datatype TraceState<P> = TraceState(lastSequence: int, resyncInProgress: bool, latest: Option<P>)

  /** The trace source starts over when a resync meets number one, and jumps onto any trace while resyncing. */
  function AcceptTrace<P>(t: TraceState<P>, sequence: int, projection: P): (TraceState<P>, bool) {
    var restarts := t.resyncInProgress && sequence == 1 && t.lastSequence > 0;
    var last := if restarts then 0 else t.lastSequence;
    if sequence == last + 1 then (TraceState(sequence, false, Some(projection)), true)
    else if sequence <= last then (t.(lastSequence := last), false)
    else if t.resyncInProgress then (TraceState(sequence, false, Some(projection)), true)
    else (t.(lastSequence := last, resyncInProgress := true), false)
  }

  /** A ready gateway puts a source that has seen traces into a resync; frames come as the network brings them. */
  datatype TraceEvent<P> = GatewayReady | TraceFrame(sequence: int, projection: P)

  /** The source with the numbers it has accepted so far. */
  datatype TraceRun<P> = TraceRun(state: TraceState<P>, accepted: seq<int>)

  function TraceStep<P>(r: TraceRun<P>, e: TraceEvent<P>): TraceRun<P> {
    match e
    case GatewayReady => if r.state.lastSequence > 0 then r.(state := r.state.(resyncInProgress := true)) else r
    case TraceFrame(sequence, projection) =>
      var (next, taken) := AcceptTrace(r.state, sequence, projection);
      TraceRun(next, if taken then r.accepted + [sequence] else r.accepted)
  }

  function RunTrace<P>(events: seq<TraceEvent<P>>): TraceRun<P>
    decreases |events|
  {
    if events == [] then TraceRun(TraceState(0, false, None), [])
    else TraceStep(RunTrace(events[..|events| - 1]), events[|events| - 1])
  }

  ghost predicate StrictlyClimbs(accepted: seq<int>) {
    forall i, j :: 0 <= i < j < |accepted| ==> accepted[i] < accepted[j]
  }

  /** Number one again, while a resync is in progress and something was accepted. */
  predicate Restarts<P>(t: TraceState<P>, e: TraceEvent<P>) {
    e.TraceFrame? && e.sequence == 1 && t.resyncInProgress && t.lastSequence > 0
  }

  predicate TraceInvariant<P>(r: TraceRun<P>) {
    && r.state.lastSequence == (if r.accepted == [] then 0 else r.accepted[|r.accepted| - 1])
    && (forall i :: 0 <= i < |r.accepted| ==> r.accepted[i] >= 1)
  }

  lemma {:induction false} TraceForever<P>(events: seq<TraceEvent<P>>)
    ensures TraceInvariant(RunTrace(events))
    decreases |events|
  {
    if events != [] {
      TraceForever(events[..|events| - 1]);
    }
  }

  lemma TraceStepClimbs<P>(r: TraceRun<P>, e: TraceEvent<P>)
    requires TraceInvariant(r)
    ensures StrictlyClimbs(TraceStep(r, e).accepted) <==> StrictlyClimbs(r.accepted) && !Restarts(r.state, e)
  {
    var next := TraceStep(r, e);
    if next.accepted != r.accepted {
      var n := |r.accepted|;
      assert next.accepted[..n] == r.accepted;
      assert forall i :: 0 <= i < n ==> next.accepted[i] == r.accepted[i];
      assert Restarts(r.state, e) ==> n > 0 && next.accepted[n - 1] >= next.accepted[n];
      assert StrictlyClimbs(r.accepted) ==> forall i :: 0 <= i < n ==> r.accepted[i] <= r.accepted[n - 1];
    }
  }

  predicate RestartsAt<P>(events: seq<TraceEvent<P>>, i: nat)
    requires i < |events|
  {
    Restarts(RunTrace(events[..i]).state, events[i])
  }

  lemma RestartsEarlier<P>(events: seq<TraceEvent<P>>, i: nat)
    requires i < |events| - 1
    ensures RestartsAt(events[..|events| - 1], i) == RestartsAt(events, i)
  {
    assert events[..|events| - 1][..i] == events[..i];
  }

  /**
    Over every sequence of frames and reconnections, accepted traces strictly climb if and only if no frame
    numbered one is met while a resync is in progress and something was accepted already.
   */
  lemma {:induction false} TraceClimbsUnlessRestarted<P>(events: seq<TraceEvent<P>>)
    ensures StrictlyClimbs(RunTrace(events).accepted) <==> forall i :: 0 <= i < |events| ==> !RestartsAt(events, i)
    decreases |events|
  {
    if events != [] {
      var k := |events| - 1;
      TraceClimbsUnlessRestarted(events[..k]);
      TraceForever(events[..k]);
      TraceStepClimbs(RunTrace(events[..k]), events[k]);
      assert RestartsAt(events, k) == Restarts(RunTrace(events[..k]).state, events[k]);
      forall i | 0 <= i < k ensures RestartsAt(events[..k], i) == RestartsAt(events, i) {
        RestartsEarlier(events, i);
      }
    }
  }

  /** The network brings the first three traces, the fifth before the fourth, and a second copy of the first. */
  const LATE_FIRST: seq<TraceEvent<string>> :=
    [TraceFrame(1, "first"), TraceFrame(2, "second"), TraceFrame(3, "third"), TraceFrame(5, "fifth"),
     TraceFrame(1, "first")]

  /** A run that rewinds: the late copy is accepted again and becomes the latest trace. */
  lemma StaleFirstTraceRewinds()
    ensures RunTrace(LATE_FIRST[..3]) == TraceRun(TraceState(3, false, Some("third")), [1, 2, 3])
    ensures RunTrace(LATE_FIRST) == TraceRun(TraceState(1, false, Some("first")), [1, 2, 3, 1])
  {
    var e := LATE_FIRST;
    assert e[..5] == e && e[..5][..4] == e[..4] && e[..4][..3] == e[..3];
    assert e[..3][..2] == e[..2] && e[..2][..1] == e[..1] && e[..1][..0] == [];
    assert RunTrace(e[..1]) == TraceRun(TraceState(1, false, Some("first")), [1]);
    assert RunTrace(e[..2]) == TraceRun(TraceState(2, false, Some("second")), [1, 2]);
    assert RunTrace(e[..4]) == TraceRun(TraceState(3, true, Some("third")), [1, 2, 3]);
  }
}
