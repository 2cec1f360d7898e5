/**
  The planner lanes of the Mesh Pong turn stepper: provider requests in flight, the
  decisions they become, and how many turns a decision may drive. Requests settle
  in any order, after any number of resets.
 */
module PlannerLanes {
  import opened Prelude
  import opened PongBall

  datatype ControlMode = HumanMode | ReflexMode | PlannerMode | HybridMode

  datatype ShellMode = ShellMode(left: ControlMode, right: ControlMode) {
    function For(side: Side): ControlMode { if side == Left then left else right }
  }

  /** A clock reading; the source also guards against readings that are not finite numbers. */
  datatype Time = At(ms: int) | NotFinite

  datatype ProposalId = ProposalId(side: Side, number: nat)

  datatype Request = Request(number: nat, side: Side, mode: ControlMode, generation: int,
                             baseTick: int, owner: Option<string>, startedAt: Time) {
    function Id(): ProposalId { ProposalId(side, number) }
  }

  datatype Strategy = Strategy(targetY: int, biasY: int, maxStep: int)

  datatype Proposal = Proposal(id: ProposalId, sequence: nat, side: Side, generation: int, baseTick: int,
                               owner: Option<string>, mode: ControlMode,
                               requestedAt: Time, completedAt: Time, strategy: Strategy)

  datatype Retirement = Cancelled | Superseded

  datatype Refusal = RefusedCancelled | RefusedSuperseded | StaleInput | OwnerChanged | ModeChanged

  datatype Lane = Lane(inFlight: Option<Request>, ready: Option<Proposal>, last: Option<Proposal>,
                       latestAccepted: nat, retired: map<ProposalId, Retirement>, freshTurns: int, staleTurns: int)

  const EMPTY_LANE := Lane(None, None, None, 0, map[], 0, 0)

  datatype TurnMatch = TurnMatch(running: bool, generation: int, currentTick: int,
                                 owner: Option<string>, mode: Option<ShellMode>)

  datatype Policy = Policy(browser: string, maxAgeMs: int, maxTickAge: int, freshLimit: int, staleLimit: int)

  datatype Freshness = Fresh | Stale

  /** What a run leaves behind: decisions accepted for a generation, and turns they drove in a mode and generation. */
  datatype Entry =
    | AcceptedDecision(side: Side, sequence: nat, generation: int)
    | Drove(side: Side, sequence: nat, freshness: Freshness, mode: ControlMode, generation: int)

  datatype Stepper = Stepper(left: Lane, right: Lane, active: bool, nextNumber: nat,
                             lastGeneration: Option<int>, outstanding: set<Request>, log: seq<Entry>) {
    function LaneOf(side: Side): Lane { if side == Left then left else right }

    function WithLane(side: Side, lane: Lane): Stepper {
      if side == Left then this.(left := lane) else this.(right := lane)
    }
  }

  datatype Outcome = Planned(strategy: Strategy) | ProviderFailed | Threw

  datatype Event =
    | Sync(match_: TurnMatch)
    | Launch(side: Side, mode: ControlMode, match_: TurnMatch, now: Time)
    | Complete(request: Request, outcome: Outcome, match_: TurnMatch, now: Time)
    | Consume(side: Side, mode: ControlMode, generation: int, match_: TurnMatch, now: Time)
    | Stop

  predicate UsesPlanner(mode: ControlMode) { mode == PlannerMode || mode == HybridMode }

  predicate ShouldLaunch(p: Policy, m: TurnMatch, side: Side) {
    m.owner == Some(p.browser) && m.mode.Some? && UsesPlanner(m.mode.value.For(side))
  }

  predicate TooOld(p: Policy, proposal: Proposal, now: Time) {
    || !proposal.requestedAt.At? || !proposal.completedAt.At? || !now.At?
    || proposal.requestedAt.ms > proposal.completedAt.ms
    || proposal.completedAt.ms > now.ms
    || now.ms - proposal.requestedAt.ms > p.maxAgeMs
  }

  function Admit(p: Policy, proposal: Proposal, lane: Lane, m: TurnMatch, now: Time): Option<Refusal> {
    var tickAge := m.currentTick - proposal.baseTick;
    if proposal.id in lane.retired && lane.retired[proposal.id] == Cancelled then Some(RefusedCancelled)
    else if proposal.sequence <= lane.latestAccepted then Some(RefusedSuperseded)
    else if proposal.generation != m.generation || tickAge < 0 || tickAge > p.maxTickAge
            || TooOld(p, proposal, now) then
      Some(StaleInput)
    else if proposal.owner != m.owner || Some(p.browser) != m.owner then Some(OwnerChanged)
    else if m.mode.None? || m.mode.value.For(proposal.side) != proposal.mode then Some(ModeChanged)
    else None
  }

  function ResetLane(s: Stepper, side: Side, reason: Retirement): Stepper {
    var lane := s.LaneOf(side);
    var retired := if lane.inFlight.Some? then lane.retired[lane.inFlight.value.Id() := reason] else lane.retired;
    s.WithLane(side, EMPTY_LANE.(retired := retired))
  }

  predicate LaneOutdated(p: Policy, lane: Lane, m: TurnMatch, side: Side) {
    var mode := if m.mode.Some? then m.mode.value.For(side) else HumanMode;
    || !ShouldLaunch(p, m, side)
    || (lane.inFlight.Some? && lane.inFlight.value.mode != mode)
    || (lane.ready.Some? && lane.ready.value.mode != mode)
    || (lane.last.Some? && lane.last.value.mode != mode)
  }

  function SyncLane(p: Policy, s: Stepper, m: TurnMatch, side: Side): Stepper {
    if LaneOutdated(p, s.LaneOf(side), m, side) then ResetLane(s, side, Superseded) else s
  }

  function SyncLanes(p: Policy, s: Stepper, m: TurnMatch): Stepper {
    if s.lastGeneration != Some(m.generation) then
      ResetLane(ResetLane(s, Left, Superseded), Right, Superseded).(lastGeneration := Some(m.generation))
    else SyncLane(p, SyncLane(p, s, m, Left), m, Right)
  }

  function LaunchRequest(s: Stepper, side: Side, mode: ControlMode, m: TurnMatch, now: Time): Stepper {
    var lane := s.LaneOf(side);
    if !s.active || lane.inFlight.Some? then s
    else
      var request := Request(s.nextNumber, side, mode, m.generation, m.currentTick, m.owner, now);
      s.WithLane(side, lane.(inFlight := Some(request)))
       .(nextNumber := s.nextNumber + 1, outstanding := s.outstanding + {request})
  }

  predicate Owns(p: Policy, s: Stepper, r: Request, m: TurnMatch) {
    s.active && m.running && m.generation == r.generation && ShouldLaunch(p, m, r.side)
  }

  function ProposalOf(r: Request, strategy: Strategy, now: Time): Proposal {
    Proposal(r.Id(), r.number, r.side, r.generation, r.baseTick, r.owner, r.mode, r.startedAt, now, strategy)
  }

  predicate InFlightIs(lane: Lane, r: Request) {
    lane.inFlight.Some? && lane.inFlight.value.number == r.number
  }

  function CompleteRequest(p: Policy, s: Stepper, r: Request, outcome: Outcome, m: TurnMatch, now: Time): Stepper {
    var lane := s.LaneOf(r.side);
    var becomesReady :=
      && r.Id() !in lane.retired && Owns(p, s, r, m) && outcome.Planned? && InFlightIs(lane, r)
      && Admit(p, ProposalOf(r, outcome.strategy, now), lane, m, now).None?;
    var decided := if becomesReady then lane.(ready := Some(ProposalOf(r, outcome.strategy, now))) else lane;
    var settled := if InFlightIs(decided, r) then decided.(inFlight := None) else decided;
    s.WithLane(r.side, settled).(outstanding := s.outstanding - {r})
  }

  function TakeReady(p: Policy, s: Stepper, side: Side): Stepper
    requires s.LaneOf(side).ready.Some?
  {
    var lane := s.LaneOf(side);
    s.WithLane(side, lane.(ready := None, last := lane.ready, latestAccepted := lane.ready.value.sequence,
                           freshTurns := p.freshLimit, staleTurns := p.staleLimit))
     .(log := s.log + [AcceptedDecision(side, lane.ready.value.sequence, lane.ready.value.generation)])
  }

  /** What a turn may take from the last decision: fresh while it lasts, then stale for hybrid only. */
  function UseOf(lane: Lane, mode: ControlMode, generation: int): Option<Freshness> {
    if lane.last.None? || lane.last.value.generation != generation then None
    else if lane.freshTurns > 0 then Some(Fresh)
    else if mode == HybridMode && lane.staleTurns > 0 then Some(Stale)
    else None
  }

  function Spend(s: Stepper, side: Side, use: Freshness, mode: ControlMode, generation: int): Stepper
    requires s.LaneOf(side).last.Some?
  {
    var lane := s.LaneOf(side);
    s.WithLane(side, if use == Fresh then lane.(freshTurns := lane.freshTurns - 1)
                     else lane.(staleTurns := lane.staleTurns - 1))
     .(log := s.log + [Drove(side, lane.last.value.sequence, use, mode, generation)])
  }

  function UseLast(s: Stepper, side: Side, mode: ControlMode, generation: int): Stepper {
    match UseOf(s.LaneOf(side), mode, generation)
    case None => s
    case Some(use) => Spend(s, side, use, mode, generation)
  }

  function ConsumeStrategy(p: Policy, s: Stepper, side: Side, mode: ControlMode, generation: int,
                           m: TurnMatch, now: Time): Stepper {
    var lane := s.LaneOf(side);
    if lane.ready.Some? && lane.ready.value.generation == generation then
      if Admit(p, lane.ready.value, lane.(ready := None), m, now).Some? then
        s.WithLane(side, lane.(ready := None))
      else UseLast(TakeReady(p, s, side), side, mode, generation)
    else UseLast(s, side, mode, generation)
  }

  function Step(p: Policy, s: Stepper, e: Event): Stepper {
    match e
    case Sync(m) => SyncLanes(p, s, m)
    case Launch(side, mode, m, now) => LaunchRequest(s, side, mode, m, now)
    case Complete(r, outcome, m, now) =>
      if r in s.outstanding then CompleteRequest(p, s, r, outcome, m, now) else s
    case Consume(side, mode, generation, m, now) => ConsumeStrategy(p, s, side, mode, generation, m, now)
    case Stop => ResetLane(ResetLane(s.(active := false), Left, Cancelled), Right, Cancelled)
  }

  const FRESH_STEPPER := Stepper(EMPTY_LANE, EMPTY_LANE, true, 1, None, {}, [])

  function Run(p: Policy, events: seq<Event>): Stepper
    decreases |events|
  {
    if events == [] then FRESH_STEPPER else Step(p, Run(p, events[..|events| - 1]), events[|events| - 1])
  }

  // ---------------------------------------------------------------- the stepper object

  /** The stepper in the source's form: two lanes and a few scalars, updated in place. */
  class TurnStepper {
    const policy: Policy
    var left: Lane
    var right: Lane
    var active: bool
    var nextNumber: nat
    var lastGeneration: Option<int>
    var outstanding: set<Request>
    var log: seq<Entry>

    ghost function View(): Stepper
      reads this
    {
      Stepper(left, right, active, nextNumber, lastGeneration, outstanding, log)
    }

    constructor (policy: Policy)
      ensures this.policy == policy && View() == FRESH_STEPPER
    {
      this.policy := policy;
      left, right := EMPTY_LANE, EMPTY_LANE;
      active, nextNumber, lastGeneration := true, 1, None;
      outstanding, log := {}, [];
    }

    function LaneAt(side: Side): Lane
      reads this
    {
      if side == Left then left else right
    }

    method SetLane(side: Side, lane: Lane)
      modifies this
      ensures View() == old(View()).WithLane(side, lane)
    {
      if side == Left { left := lane; } else { right := lane; }
    }

    method Reset(side: Side, reason: Retirement)
      modifies this
      ensures View() == ResetLane(old(View()), side, reason)
    {
      var lane := LaneAt(side);
      var retired := lane.retired;
      if lane.inFlight.Some? {
        retired := retired[lane.inFlight.value.Id() := reason];
      }
      SetLane(side, EMPTY_LANE.(retired := retired));
    }

    method SyncWith(m: TurnMatch)
      modifies this
      ensures View() == Step(policy, old(View()), Sync(m))
    {
      if lastGeneration != Some(m.generation) {
        Reset(Left, Superseded);
        Reset(Right, Superseded);
        lastGeneration := Some(m.generation);
        return;
      }
      if LaneOutdated(policy, left, m, Left) {
        Reset(Left, Superseded);
      }
      if LaneOutdated(policy, right, m, Right) {
        Reset(Right, Superseded);
      }
    }

    method LaunchPlanner(side: Side, mode: ControlMode, m: TurnMatch, now: Time)
      modifies this
      ensures View() == Step(policy, old(View()), Launch(side, mode, m, now))
    {
      var lane := LaneAt(side);
      if !active || lane.inFlight.Some? {
        return;
      }
      var request := Request(nextNumber, side, mode, m.generation, m.currentTick, m.owner, now);
      nextNumber := nextNumber + 1;
      SetLane(side, lane.(inFlight := Some(request)));
      outstanding := outstanding + {request};
    }

    method ResolvePlanner(r: Request, outcome: Outcome, m: TurnMatch, now: Time)
      requires r in outstanding
      modifies this
      ensures View() == Step(policy, old(View()), Complete(r, outcome, m, now))
    {
      var lane := LaneAt(r.side);
      outstanding := outstanding - {r};
      if r.Id() !in lane.retired && active && m.running && m.generation == r.generation
         && ShouldLaunch(policy, m, r.side) && outcome.Planned? && InFlightIs(lane, r) {
        var proposal := ProposalOf(r, outcome.strategy, now);
        var refusal := Admit(policy, proposal, lane, m, now);
        if refusal == None {
          lane := lane.(ready := Some(proposal));
        }
      }
      if InFlightIs(lane, r) {
        lane := lane.(inFlight := None);
      }
      SetLane(r.side, lane);
    }

    method ConsumePlanner(side: Side, mode: ControlMode, generation: int, m: TurnMatch, now: Time)
      returns (used: Option<(Strategy, Freshness)>)
      modifies this
      ensures View() == Step(policy, old(View()), Consume(side, mode, generation, m, now))
      ensures used.Some? <==> old(log) < log && log[|log| - 1].Drove?
      ensures used.Some? ==>
                && LaneAt(side).last.Some?
                && used.value.0 == LaneAt(side).last.value.strategy
                && log[|log| - 1] == Drove(side, LaneAt(side).last.value.sequence, used.value.1, mode, generation)
    {
      var lane := LaneAt(side);
      if lane.ready.Some? && lane.ready.value.generation == generation {
        var decision := lane.ready.value;
        lane := lane.(ready := None);
        SetLane(side, lane);
        var refusal := Admit(policy, decision, lane, m, now);
        if refusal.Some? {
          return None;
        }
        lane := lane.(last := Some(decision), latestAccepted := decision.sequence,
                      freshTurns := policy.freshLimit, staleTurns := policy.staleLimit);
        SetLane(side, lane);
        log := log + [AcceptedDecision(side, decision.sequence, decision.generation)];
      }
      if lane.last.None? || lane.last.value.generation != generation {
        return None;
      }
      if lane.freshTurns > 0 {
        SetLane(side, lane.(freshTurns := lane.freshTurns - 1));
        log := log + [Drove(side, lane.last.value.sequence, Fresh, mode, generation)];
        return Some((lane.last.value.strategy, Fresh));
      }
      if mode == HybridMode && lane.staleTurns > 0 {
        SetLane(side, lane.(staleTurns := lane.staleTurns - 1));
        log := log + [Drove(side, lane.last.value.sequence, Stale, mode, generation)];
        return Some((lane.last.value.strategy, Stale));
      }
      return None;
    }

    method StopStepper()
      modifies this
      ensures View() == Step(policy, old(View()), Stop)
    {
      active := false;
      Reset(Left, Cancelled);
      Reset(Right, Cancelled);
    }
  }

  // ---------------------------------------------------------------- what every run keeps

  function Accepted(log: seq<Entry>, side: Side): seq<nat> {
    if log == [] then []
    else Accepted(log[..|log| - 1], side)
         + (if log[|log| - 1].AcceptedDecision? && log[|log| - 1].side == side then [log[|log| - 1].sequence] else [])
  }

  predicate Counts(e: Entry, side: Side, sequence: nat, freshness: Freshness) {
    e.Drove? && e.side == side && e.sequence == sequence && e.freshness == freshness
  }

  /** How many turns a decision drove, in whatever mode and generation. */
  function Uses(log: seq<Entry>, side: Side, sequence: nat, freshness: Freshness): nat {
    if log == [] then 0
    else Uses(log[..|log| - 1], side, sequence, freshness)
         + (if Counts(log[|log| - 1], side, sequence, freshness) then 1 else 0)
  }

  ghost predicate Climbing(s: seq<nat>) {
    forall i, j :: 0 <= i < j < |s| ==> s[i] < s[j]
  }

  ghost predicate AllBelow(s: seq<nat>, bound: nat) {
    forall i :: 0 <= i < |s| ==> s[i] < bound
  }

  /** A decision is never a proposal of a retired request, and accepted numbers stay below the ones to come. */
  ghost predicate LaneOrder(s: Stepper, side: Side) {
    var lane := s.LaneOf(side);
    var accepted := Accepted(s.log, side);
    && Climbing(accepted)
    && AllBelow(accepted, s.nextNumber)
    && (lane.inFlight.Some? ==> lane.inFlight.value.side == side && lane.inFlight.value.number < s.nextNumber
                                && AllBelow(accepted, lane.inFlight.value.number)
                                && lane.inFlight.value.Id() !in lane.retired)
    && (lane.ready.Some? ==> lane.ready.value.id == ProposalId(side, lane.ready.value.sequence)
                             && lane.ready.value.side == side
                             && lane.ready.value.sequence < s.nextNumber
                             && AllBelow(accepted, lane.ready.value.sequence)
                             && lane.ready.value.id !in lane.retired)
    && (lane.ready.Some? && lane.inFlight.Some? ==> lane.ready.value.sequence < lane.inFlight.value.number)
    && (forall id :: id in lane.retired ==> id.side == side && id.number < s.nextNumber)
    && (forall i :: 0 <= i < |accepted| ==> ProposalId(side, accepted[i]) !in lane.retired)
  }

  /** Of the requests not yet settled, all but the one in flight are retired. */
  ghost predicate LaneLive(s: Stepper, side: Side) {
    var lane := s.LaneOf(side);
    && (forall r :: r in s.outstanding && r.side == side ==>
          lane.inFlight == Some(r) || r.Id() in lane.retired)
    && (forall r :: r in s.outstanding ==> r.number < s.nextNumber)
  }

  function NonNegative(n: int): nat { if n < 0 then 0 else n }

  /** Turns already driven by the last decision plus turns it may still drive stay within the policy. */
  ghost predicate LaneBudget(p: Policy, s: Stepper, side: Side) {
    var lane := s.LaneOf(side);
    var accepted := Accepted(s.log, side);
    && (forall n: nat :: Uses(s.log, side, n, Fresh) <= NonNegative(p.freshLimit))
    && (forall n: nat :: Uses(s.log, side, n, Stale) <= NonNegative(p.staleLimit))
    && (forall n: nat :: n !in accepted ==>
          Uses(s.log, side, n, Fresh) == 0 && Uses(s.log, side, n, Stale) == 0)
    && (lane.last.Some? ==>
          && lane.last.value.sequence in accepted
          && Uses(s.log, side, lane.last.value.sequence, Fresh) + NonNegative(lane.freshTurns)
             <= NonNegative(p.freshLimit)
          && Uses(s.log, side, lane.last.value.sequence, Stale) + NonNegative(lane.staleTurns)
             <= NonNegative(p.staleLimit))
  }

  ghost predicate LaneInvariant(p: Policy, s: Stepper, side: Side) {
    LaneOrder(s, side) && LaneLive(s, side) && LaneBudget(p, s, side)
  }

  ghost predicate StepperInvariant(p: Policy, s: Stepper) {
    LaneInvariant(p, s, Left) && LaneInvariant(p, s, Right)
  }

  lemma LogAppend(log: seq<Entry>, e: Entry)
    ensures forall side: Side :: Accepted(log + [e], side) ==
              Accepted(log, side) + (if e.AcceptedDecision? && e.side == side then [e.sequence] else [])
    ensures forall side, n, f ::
              Uses(log + [e], side, n, f) == Uses(log, side, n, f) + (if Counts(e, side, n, f) then 1 else 0)
  {
    assert (log + [e])[..|log + [e]| - 1] == log;
  }

  /** Changing one lane and nothing the other one depends on leaves the other one's invariant alone. */
  lemma OtherLane(p: Policy, s: Stepper, next: Stepper, side: Side)
    requires LaneInvariant(p, s, side)
    requires next.LaneOf(side) == s.LaneOf(side) && next.nextNumber >= s.nextNumber
    requires forall r :: r in next.outstanding && r.side == side ==> r in s.outstanding
    requires forall r :: r in next.outstanding ==> r.number < next.nextNumber
    requires Accepted(next.log, side) == Accepted(s.log, side)
    requires forall n: nat, f :: Uses(next.log, side, n, f) == Uses(s.log, side, n, f)
    ensures LaneInvariant(p, next, side)
  {
  }

  lemma ResetKeeps(p: Policy, s: Stepper, side: Side, reason: Retirement)
    requires StepperInvariant(p, s)
    ensures StepperInvariant(p, ResetLane(s, side, reason))
  {
    OtherLane(p, s, ResetLane(s, side, reason), side.Opponent());
  }

  lemma FlagsKeep(p: Policy, s: Stepper, active: bool, generation: Option<int>)
    requires StepperInvariant(p, s)
    ensures StepperInvariant(p, s.(active := active, lastGeneration := generation))
  {
    OtherLane(p, s, s.(active := active, lastGeneration := generation), Left);
    OtherLane(p, s, s.(active := active, lastGeneration := generation), Right);
  }

  lemma LaunchOwnLane(p: Policy, s: Stepper, side: Side, mode: ControlMode, m: TurnMatch, now: Time)
    requires LaneInvariant(p, s, side)
    ensures LaneInvariant(p, LaunchRequest(s, side, mode, m, now), side)
  {
  }

  lemma LaunchKeeps(p: Policy, s: Stepper, side: Side, mode: ControlMode, m: TurnMatch, now: Time)
    requires StepperInvariant(p, s)
    ensures StepperInvariant(p, LaunchRequest(s, side, mode, m, now))
  {
    var next := LaunchRequest(s, side, mode, m, now);
    if next != s {
      LaunchOwnLane(p, s, side, mode, m, now);
      OtherLane(p, s, next, side.Opponent());
      BothLanes(p, next, side);
    }
  }

  lemma CompleteKeeps(p: Policy, s: Stepper, r: Request, outcome: Outcome, m: TurnMatch, now: Time)
    requires StepperInvariant(p, s) && r in s.outstanding
    ensures StepperInvariant(p, CompleteRequest(p, s, r, outcome, m, now))
  {
    var next := CompleteRequest(p, s, r, outcome, m, now);
    CompleteOwnLane(p, s, r, outcome, m, now);
    OtherLane(p, s, next, r.side.Opponent());
    BothLanes(p, next, r.side);
  }

  lemma CompleteOrder(p: Policy, s: Stepper, r: Request, outcome: Outcome, m: TurnMatch, now: Time)
    requires LaneOrder(s, r.side) && LaneLive(s, r.side) && r in s.outstanding
    ensures LaneOrder(CompleteRequest(p, s, r, outcome, m, now), r.side)
  {
  }

  lemma CompleteLive(p: Policy, s: Stepper, r: Request, outcome: Outcome, m: TurnMatch, now: Time)
    requires LaneOrder(s, r.side) && LaneLive(s, r.side) && r in s.outstanding
    ensures LaneLive(CompleteRequest(p, s, r, outcome, m, now), r.side)
  {
  }

  lemma CompleteBudget(p: Policy, s: Stepper, r: Request, outcome: Outcome, m: TurnMatch, now: Time)
    requires LaneBudget(p, s, r.side)
    ensures LaneBudget(p, CompleteRequest(p, s, r, outcome, m, now), r.side)
  {
  }

  lemma CompleteOwnLane(p: Policy, s: Stepper, r: Request, outcome: Outcome, m: TurnMatch, now: Time)
    requires LaneInvariant(p, s, r.side) && r in s.outstanding
    ensures LaneInvariant(p, CompleteRequest(p, s, r, outcome, m, now), r.side)
  {
    CompleteOrder(p, s, r, outcome, m, now);
    CompleteLive(p, s, r, outcome, m, now);
    CompleteBudget(p, s, r, outcome, m, now);
  }

  lemma DropReadyKeeps(p: Policy, s: Stepper, side: Side)
    requires StepperInvariant(p, s)
    ensures StepperInvariant(p, s.WithLane(side, s.LaneOf(side).(ready := None)))
  {
    OtherLane(p, s, s.WithLane(side, s.LaneOf(side).(ready := None)), side.Opponent());
  }

  lemma TakeOrder(p: Policy, s: Stepper, side: Side)
    requires LaneOrder(s, side) && LaneLive(s, side) && s.LaneOf(side).ready.Some?
    ensures LaneOrder(TakeReady(p, s, side), side) && LaneLive(TakeReady(p, s, side), side)
  {
    LogAppend(s.log, AcceptedDecision(side, s.LaneOf(side).ready.value.sequence,
                                      s.LaneOf(side).ready.value.generation));
  }

  lemma TakeBudget(p: Policy, s: Stepper, side: Side)
    requires LaneOrder(s, side) && LaneBudget(p, s, side) && s.LaneOf(side).ready.Some?
    ensures LaneBudget(p, TakeReady(p, s, side), side)
  {
    var n := s.LaneOf(side).ready.value.sequence;
    var accepted, next := Accepted(s.log, side), TakeReady(p, s, side);
    LogAppend(s.log, AcceptedDecision(side, n, s.LaneOf(side).ready.value.generation));
    assert n !in accepted;
    assert Accepted(next.log, side) == accepted + [n];
    assert (accepted + [n])[|accepted|] == n;
  }

  lemma OtherLaneLog(log: seq<Entry>, e: Entry, side: Side)
    requires (e.AcceptedDecision? || e.Drove?) && e.side != side
    ensures Accepted(log + [e], side) == Accepted(log, side)
    ensures forall n: nat, f :: Uses(log + [e], side, n, f) == Uses(log, side, n, f)
  {
    LogAppend(log, e);
  }

  lemma TakeOther(p: Policy, s: Stepper, side: Side)
    requires StepperInvariant(p, s) && s.LaneOf(side).ready.Some?
    ensures LaneInvariant(p, TakeReady(p, s, side), side.Opponent())
  {
    var ready := s.LaneOf(side).ready.value;
    OtherLaneLog(s.log, AcceptedDecision(side, ready.sequence, ready.generation), side.Opponent());
    OtherLane(p, s, TakeReady(p, s, side), side.Opponent());
  }

  lemma BothLanes(p: Policy, s: Stepper, side: Side)
    requires LaneInvariant(p, s, side) && LaneInvariant(p, s, side.Opponent())
    ensures StepperInvariant(p, s)
  {
  }

  lemma TakeKeeps(p: Policy, s: Stepper, side: Side)
    requires StepperInvariant(p, s) && s.LaneOf(side).ready.Some?
    ensures StepperInvariant(p, TakeReady(p, s, side))
  {
    TakeOrder(p, s, side);
    TakeBudget(p, s, side);
    TakeOther(p, s, side);
    BothLanes(p, TakeReady(p, s, side), side);
  }

  predicate MaySpend(lane: Lane, use: Freshness) {
    lane.last.Some? && (if use == Fresh then lane.freshTurns > 0 else lane.staleTurns > 0)
  }

  lemma SpendBudget(p: Policy, s: Stepper, side: Side, use: Freshness, mode: ControlMode, generation: int)
    requires LaneBudget(p, s, side) && MaySpend(s.LaneOf(side), use)
    ensures LaneBudget(p, Spend(s, side, use, mode, generation), side)
  {
    LogAppend(s.log, Drove(side, s.LaneOf(side).last.value.sequence, use, mode, generation));
    assert Accepted(Spend(s, side, use, mode, generation).log, side) == Accepted(s.log, side);
  }

  lemma SpendOrder(s: Stepper, side: Side, use: Freshness, mode: ControlMode, generation: int)
    requires LaneOrder(s, side) && LaneLive(s, side) && MaySpend(s.LaneOf(side), use)
    ensures var next := Spend(s, side, use, mode, generation); LaneOrder(next, side) && LaneLive(next, side)
  {
    LogAppend(s.log, Drove(side, s.LaneOf(side).last.value.sequence, use, mode, generation));
    assert Accepted(Spend(s, side, use, mode, generation).log, side) == Accepted(s.log, side);
  }

  lemma SpendKeeps(p: Policy, s: Stepper, side: Side, use: Freshness, mode: ControlMode, generation: int)
    requires StepperInvariant(p, s) && MaySpend(s.LaneOf(side), use)
    ensures StepperInvariant(p, Spend(s, side, use, mode, generation))
  {
    SpendBudget(p, s, side, use, mode, generation);
    SpendOrder(s, side, use, mode, generation);
    OtherLaneLog(s.log, Drove(side, s.LaneOf(side).last.value.sequence, use, mode, generation), side.Opponent());
    OtherLane(p, s, Spend(s, side, use, mode, generation), side.Opponent());
  }

  lemma UseKeeps(p: Policy, s: Stepper, side: Side, mode: ControlMode, generation: int)
    requires StepperInvariant(p, s)
    ensures StepperInvariant(p, UseLast(s, side, mode, generation))
  {
    var use := UseOf(s.LaneOf(side), mode, generation);
    if use.Some? {
      SpendKeeps(p, s, side, use.value, mode, generation);
    }
  }

  lemma ConsumeKeeps(p: Policy, s: Stepper, side: Side, mode: ControlMode, generation: int, m: TurnMatch, now: Time)
    requires StepperInvariant(p, s)
    ensures StepperInvariant(p, ConsumeStrategy(p, s, side, mode, generation, m, now))
  {
    var lane := s.LaneOf(side);
    if lane.ready.Some? && lane.ready.value.generation == generation {
      if Admit(p, lane.ready.value, lane.(ready := None), m, now).Some? {
        DropReadyKeeps(p, s, side);
      } else {
        TakeKeeps(p, s, side);
        UseKeeps(p, TakeReady(p, s, side), side, mode, generation);
      }
    } else {
      UseKeeps(p, s, side, mode, generation);
    }
  }

  lemma SyncKeeps(p: Policy, s: Stepper, m: TurnMatch)
    requires StepperInvariant(p, s)
    ensures StepperInvariant(p, SyncLanes(p, s, m))
  {
    ResetKeeps(p, s, Left, Superseded);
    ResetKeeps(p, s, Right, Superseded);
    var both := ResetLane(ResetLane(s, Left, Superseded), Right, Superseded);
    ResetKeeps(p, ResetLane(s, Left, Superseded), Right, Superseded);
    FlagsKeep(p, both, both.active, Some(m.generation));
  }

  lemma StepKeeps(p: Policy, s: Stepper, e: Event)
    requires StepperInvariant(p, s)
    ensures StepperInvariant(p, Step(p, s, e))
  {
    match e
    case Sync(m) => SyncKeeps(p, s, m);
    case Launch(side, mode, m, now) => LaunchKeeps(p, s, side, mode, m, now);
    case Complete(r, outcome, m, now) =>
      if r in s.outstanding {
        CompleteKeeps(p, s, r, outcome, m, now);
      }
    case Consume(side, mode, generation, m, now) => ConsumeKeeps(p, s, side, mode, generation, m, now);
    case Stop =>
      FlagsKeep(p, s, false, s.lastGeneration);
      ResetKeeps(p, s.(active := false), Left, Cancelled);
      ResetKeeps(p, ResetLane(s.(active := false), Left, Cancelled), Right, Cancelled);
  }

  lemma {:induction false} RunKeeps(p: Policy, events: seq<Event>)
    ensures StepperInvariant(p, Run(p, events))
    decreases |events|
  {
    if events != [] {
      RunKeeps(p, events[..|events| - 1]);
      StepKeeps(p, Run(p, events[..|events| - 1]), events[|events| - 1]);
    }
  }

  /** At most one request of a side is live: two unsettled requests that are not retired are the same. */
  lemma {:induction false} OneLiveRequest(p: Policy, events: seq<Event>, a: Request, b: Request)
    requires a in Run(p, events).outstanding && b in Run(p, events).outstanding && a.side == b.side
    requires a.Id() !in Run(p, events).LaneOf(a.side).retired && b.Id() !in Run(p, events).LaneOf(b.side).retired
    ensures a == b
  {
    RunKeeps(p, events);
    assert a.side == Left || a.side == Right;
  }

  /**
    Accepted sequences of a side strictly increase over the whole run, through every reset, and no
    proposal whose request was retired is among them.
   */
  lemma DecisionsClimbAndAreNotRetired(p: Policy, events: seq<Event>, side: Side)
    ensures var s := Run(p, events); var accepted := Accepted(s.log, side);
            && Climbing(accepted)
            && (forall i :: 0 <= i < |accepted| ==> ProposalId(side, accepted[i]) !in s.LaneOf(side).retired)
  {
    RunKeeps(p, events);
    assert side == Left || side == Right;
  }

  /** One decision drives at most the fresh limit of turns, and at most the stale limit beyond. */
  lemma DecisionDrivesBoundedTurns(p: Policy, events: seq<Event>, side: Side, sequence: nat)
    ensures Uses(Run(p, events).log, side, sequence, Fresh) <= NonNegative(p.freshLimit)
    ensures Uses(Run(p, events).log, side, sequence, Stale) <= NonNegative(p.staleLimit)
  {
    RunKeeps(p, events);
    assert side == Left || side == Right;
  }

  // ---------------------------------------------------------------- whose decision, in which mode

  /** The decision was accepted before, for this generation. */
  ghost predicate AcceptedBefore(log: seq<Entry>, n: nat, side: Side, sequence: nat, generation: int) {
    exists j :: 0 <= j < n && j < |log| && log[j] == AcceptedDecision(side, sequence, generation)
  }

  /** A turn was driven by a decision accepted earlier for its own generation, and a stale one in hybrid mode. */
  ghost predicate RightlyDriven(log: seq<Entry>, i: nat)
    requires i < |log|
  {
    log[i].Drove? ==>
      && AcceptedBefore(log, i, log[i].side, log[i].sequence, log[i].generation)
      && (log[i].freshness == Stale ==> log[i].mode == HybridMode)
  }

  ghost predicate LastWasAccepted(s: Stepper, side: Side) {
    var last := s.LaneOf(side).last;
    last.Some? ==> AcceptedBefore(s.log, |s.log|, side, last.value.sequence, last.value.generation)
  }

  ghost predicate DrivenInvariant(s: Stepper) {
    && (forall i :: 0 <= i < |s.log| ==> RightlyDriven(s.log, i))
    && LastWasAccepted(s, Left) && LastWasAccepted(s, Right)
  }

  lemma LogGrows(log: seq<Entry>, e: Entry)
    requires forall i :: 0 <= i < |log| ==> RightlyDriven(log, i)
    requires e.Drove? ==>
               && AcceptedBefore(log, |log|, e.side, e.sequence, e.generation)
               && (e.freshness == Stale ==> e.mode == HybridMode)
    ensures forall i :: 0 <= i < |log + [e]| ==> RightlyDriven(log + [e], i)
    ensures forall side, n, g ::
              AcceptedBefore(log, |log|, side, n, g) ==> AcceptedBefore(log + [e], |log + [e]|, side, n, g)
  {
    var longer := log + [e];
    forall i | 0 <= i < |longer| ensures RightlyDriven(longer, i) {
      if longer[i].Drove? {
        var d := longer[i];
        assert i < |log| ==> RightlyDriven(log, i) && longer[i] == log[i];
        var j :| 0 <= j < i && j < |log| && log[j] == AcceptedDecision(d.side, d.sequence, d.generation);
        assert longer[j] == log[j];
      }
    }
    forall side, n, g | AcceptedBefore(log, |log|, side, n, g) ensures AcceptedBefore(longer, |longer|, side, n, g) {
      var j :| 0 <= j < |log| && log[j] == AcceptedDecision(side, n, g);
      assert longer[j] == log[j];
    }
  }

  lemma TakeIsDriven(p: Policy, s: Stepper, side: Side)
    requires DrivenInvariant(s) && s.LaneOf(side).ready.Some?
    ensures DrivenInvariant(TakeReady(p, s, side))
  {
    var ready := s.LaneOf(side).ready.value;
    LogGrows(s.log, AcceptedDecision(side, ready.sequence, ready.generation));
    var next := TakeReady(p, s, side);
    assert next.log[|s.log|] == AcceptedDecision(side, ready.sequence, ready.generation);
    assert side == Left || side == Right;
  }

  lemma UseIsDriven(s: Stepper, side: Side, mode: ControlMode, generation: int)
    requires DrivenInvariant(s)
    ensures DrivenInvariant(UseLast(s, side, mode, generation))
  {
    var use := UseOf(s.LaneOf(side), mode, generation);
    if use.Some? {
      assert side == Left || side == Right;
      LogGrows(s.log, Drove(side, s.LaneOf(side).last.value.sequence, use.value, mode, generation));
    }
  }

  lemma StepIsDriven(p: Policy, s: Stepper, e: Event)
    requires DrivenInvariant(s)
    ensures DrivenInvariant(Step(p, s, e))
  {
    if e.Consume? {
      var lane := s.LaneOf(e.side);
      if lane.ready.Some? && lane.ready.value.generation == e.generation {
        if Admit(p, lane.ready.value, lane.(ready := None), e.match_, e.now).None? {
          TakeIsDriven(p, s, e.side);
          UseIsDriven(TakeReady(p, s, e.side), e.side, e.mode, e.generation);
        }
      } else {
        UseIsDriven(s, e.side, e.mode, e.generation);
      }
    }
  }

  /**
    In every run each turn was driven by a decision accepted earlier for the turn's own generation, and every
    turn driven by a stale decision was driven in hybrid mode.
   */
  lemma {:induction false} StaleOnlyInHybrid(p: Policy, events: seq<Event>)
    ensures DrivenInvariant(Run(p, events))
    ensures var log := Run(p, events).log;
            forall i :: 0 <= i < |log| && log[i].Drove? ==>
              && (log[i].freshness == Stale ==> log[i].mode == HybridMode)
              && AcceptedBefore(log, i, log[i].side, log[i].sequence, log[i].generation)
    decreases |events|
  {
    if events != [] {
      StaleOnlyInHybrid(p, events[..|events| - 1]);
      StepIsDriven(p, Run(p, events[..|events| - 1]), events[|events| - 1]);
    }
    var log := Run(p, events).log;
    forall i | 0 <= i < |log| && log[i].Drove?
      ensures log[i].freshness == Stale ==> log[i].mode == HybridMode
      ensures AcceptedBefore(log, i, log[i].side, log[i].sequence, log[i].generation)
    {
      assert RightlyDriven(log, i);
    }
  }

  // ---------------------------------------------------------------- retired for ever

  lemma RetiredStays(p: Policy, s: Stepper, e: Event, side: Side, id: ProposalId)
    requires id in s.LaneOf(side).retired
    ensures id in Step(p, s, e).LaneOf(side).retired
  {
  }

  lemma {:induction false} StillRetired(p: Policy, events: seq<Event>, n: nat, side: Side, id: ProposalId)
    requires n <= |events| && id in Run(p, events[..n]).LaneOf(side).retired
    ensures id in Run(p, events).LaneOf(side).retired
    decreases |events|
  {
    if n == |events| {
      assert events[..n] == events;
    } else {
      var earlier := events[..|events| - 1];
      assert earlier[..n] == events[..n];
      StillRetired(p, earlier, n, side, id);
      RetiredStays(p, Run(p, earlier), events[|events| - 1], side, id);
    }
  }

  /**
    Of two moments of a run: a proposal retired at the first is still retired at the second, and is among the
    decisions accepted at neither, so no retired proposal ever becomes a decision.
   */
  lemma {:induction false} RetiredIsNeverAccepted(p: Policy, events: seq<Event>, n: nat, side: Side, number: nat)
    requires n <= |events| && ProposalId(side, number) in Run(p, events[..n]).LaneOf(side).retired
    ensures ProposalId(side, number) in Run(p, events).LaneOf(side).retired
    ensures number !in Accepted(Run(p, events).log, side)
  {
    StillRetired(p, events, n, side, ProposalId(side, number));
    DecisionsClimbAndAreNotRetired(p, events, side);
  }
}
