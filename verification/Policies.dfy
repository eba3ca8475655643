/** Causal child-order policies for one parent order. */
module Policies {
  import opened FixedPoint
  import opened Market

  /** A finite-horizon parent order and the benchmark used to score it. */
  datatype ParentPlan = ParentPlan(
    side: Side, target: int, start: int, deadline: int, benchmark: int, limit: Option<int>,
    shortfallPpm: nat, nonFillPpm: nat, adversePpm: nat)
  {
    predicate Valid()
    {
      target > 0 && deadline > start && benchmark > 0 && (limit.Some? ==> limit.value > 0)
    }
  }

  /** Everything a causal policy may know at one decision timestamp. */
  datatype ExecutionState = ExecutionState(
    plan: ParentPlan, now: int, filled: int, inventory: int, cash: int, bids: Ladder, asks: Ladder,
    volume: int, minimum: int, lastAction: Option<int>, reference: Option<int>)
  {
    function Remaining(): int { plan.target - filled }

    function TakerLadder(): Ladder { if plan.side.Buy? then asks else bids }
  }

  /** The checks made when a state is built. */
  ghost predicate Admissible(s: ExecutionState)
  {
    && 0 <= s.filled <= s.plan.target
    && s.inventory >= 0 && s.cash >= 0 && s.volume >= 0 && s.minimum >= 0
    && (s.lastAction.Some? ==> s.lastAction.value <= s.now)
    && (s.reference.Some? ==> s.reference.value > 0)
    && Positive(s.bids) && BestFirst(Sell, s.bids)
    && Positive(s.asks) && BestFirst(Buy, s.asks)
  }

  datatype Action = Wait | TakerSlice(size: int)

  /** Venue and risk bounds shared by the policies. */
  datatype Limits = Limits(interval: nat, maxChild: Option<int>, depthPpm: nat, feeReservePpm: nat)
  {
    predicate Valid() { (maxChild.Some? ==> maxChild.value > 0) && 0 < depthPpm <= PPM }
  }

  datatype Policy =
    | Twap(slices: int, limits: Limits)
    | AdaptivePov(participationPpm: nat, floorPpm: nat, tolerance: Option<int>, minimumMultiplier: nat, limits: Limits)
  {
    predicate Valid()
    {
      limits.Valid() &&
      match this
      case Twap(slices, _) => slices > 0
      case AdaptivePov(p, f, t, m, _) => 0 < p < PPM && f <= PPM && (t.Some? ==> t.value > 0) && m <= PPM
    }
  }

  // ---- schedules ----------------------------------------------------------------------------

  /** Parts per million of the horizon that have elapsed. */
  function Progress(plan: ParentPlan, now: int): (p: int)
    requires plan.Valid()
    ensures 0 <= p <= PPM
  {
    if now <= plan.start then 0
    else if now >= plan.deadline then PPM
    else
      var elapsed, duration := now - plan.start, plan.deadline - plan.start;
      MulLe(0, elapsed, PPM);
      MulLe(elapsed, duration, PPM);
      DivGe(elapsed * PPM, duration, 0);
      DivLe(elapsed * PPM, duration * PPM, duration);
      DivBracket(duration * PPM, duration, PPM);
      elapsed * PPM / duration
  }

  function Slot(slices: int, plan: ParentPlan, now: int): int
    requires slices > 0 && plan.Valid()
  {
    Min(slices, Max(0, now - plan.start) * slices / (plan.deadline - plan.start) + 1)
  }

  function TwapScheduled(slices: int, plan: ParentPlan, now: int): int
    requires slices > 0 && plan.Valid()
  {
    CeilDiv(plan.target * Slot(slices, plan, now), slices)
  }

  /** Own cumulative fills that would be `p` of all volume, given public volume `volume`. */
  function FlowTarget(participationPpm: nat, volume: int): int
    requires participationPpm < PPM
  {
    volume * participationPpm / (PPM - participationPpm)
  }

  function PovFloor(floorPpm: nat, plan: ParentPlan, now: int): int
    requires plan.Valid()
  {
    PpmOf(PpmOf(plan.target, Progress(plan, now)), floorPpm)
  }

  /** The most a policy may have filled by `now`, having seen public volume `volume`. */
  function ScheduleCeiling(policy: Policy, plan: ParentPlan, now: int, volume: int): int
    requires policy.Valid() && plan.Valid()
  {
    if now >= plan.deadline then plan.target
    else
      match policy
      case Twap(slices, _) => TwapScheduled(slices, plan, now)
      case AdaptivePov(p, f, _, _, _) =>
        Min(plan.target, Max(FlowTarget(p, volume), PovFloor(f, plan, now)))
  }

  // ---- decisions ----------------------------------------------------------------------------

  predicate Blocked(limits: Limits, s: ExecutionState)
  {
    || s.now < s.plan.start || s.now > s.plan.deadline || s.Remaining() <= 0
    || s.TakerLadder() == []
    || (s.plan.side.Sell? && s.inventory <= 0)
    || (s.now < s.plan.deadline && s.lastAction.Some? && s.now - s.lastAction.value < limits.interval)
  }

  /** Levels within the plan's limit. */
  function Executable(side: Side, limit: Option<int>, ladder: Ladder): Ladder
  {
    if ladder == [] then []
    else
      var rest := Executable(side, limit, ladder[1..]);
      if limit.None? || (if side.Buy? then ladder[0].price <= limit.value else ladder[0].price >= limit.value)
      then [ladder[0]] + rest else rest
  }

  function Depth(ladder: Ladder): nat
  {
    if ladder == [] then 0 else ladder[0].size + Depth(ladder[1..])
  }

  /** Shares the cash buys at the worst executable price plus the fee reserve. */
  function CashAffordable(limits: Limits, s: ExecutionState): int
  {
    var levels := Executable(s.plan.side, s.plan.limit, s.TakerLadder());
    if levels == [] then 0
    else
      var last: int := levels[|levels| - 1].price;
      var worst := if s.plan.limit.Some? then Max(last, s.plan.limit.value) else last;
      if worst <= 0 then 0
      else s.cash * SCALE * PPM / (worst * (PPM + limits.feeReservePpm))
  }

  function ChildSize(limits: Limits, s: ExecutionState, requested: int): int
  {
    var a := Min(requested, s.Remaining());
    var b := if limits.maxChild.Some? then Min(a, limits.maxChild.value) else a;
    var c := if s.plan.side.Sell? then Min(b, s.inventory) else b;
    var depth := Depth(Executable(s.plan.side, s.plan.limit, s.TakerLadder()));
    var d := Min(c, PpmOf(depth, limits.depthPpm));
    if s.plan.side.Buy? then Min(d, CashAffordable(limits, s)) else d
  }

  function ChildAction(limits: Limits, s: ExecutionState, requested: int): Action
  {
    var size := ChildSize(limits, s, requested);
    if size <= 0 || size < s.minimum then Wait else TakerSlice(size)
  }

  /** Observable price deterioration from the benchmark. */
  function AdverseMove(s: ExecutionState): int
  {
    if s.reference.None? && s.TakerLadder() == [] then 0
    else
      var price: int := if s.reference.Some? then s.reference.value else s.TakerLadder()[0].price;
      Max(0, if s.plan.side.Buy? then price - s.plan.benchmark else s.plan.benchmark - price)
  }

  function AdverseMultiplier(tolerance: Option<int>, minimumMultiplier: nat, s: ExecutionState): (m: int)
    requires s.plan.Valid() && minimumMultiplier <= PPM && (tolerance.Some? ==> tolerance.value > 0)
    ensures 0 <= m <= PPM
  {
    if tolerance.None? || AdverseMove(s) <= 0 then PPM
    else
      DivGe(AdverseMove(s) * PPM, tolerance.value, 0);
      var pressure := Min(PPM, AdverseMove(s) * PPM / tolerance.value);
      PpmOfAtMost(pressure, PPM - Progress(s.plan, s.now));
      Max(minimumMultiplier, PPM - PpmOf(pressure, PPM - Progress(s.plan, s.now)))
  }

  function Decide(policy: Policy, s: ExecutionState): Action
    requires policy.Valid() && s.plan.Valid()
  {
    if Blocked(policy.limits, s) then Wait
    else
      match policy
      case Twap(slices, limits) =>
        var due := TwapScheduled(slices, s.plan, s.now) - s.filled;
        if due <= 0 then Wait else ChildAction(limits, s, due)
      case AdaptivePov(p, f, tolerance, minimumMultiplier, limits) =>
        if s.now == s.plan.deadline then ChildAction(limits, s, s.Remaining())
        else
          var desired := Min(s.plan.target, Max(FlowTarget(p, s.volume), PovFloor(f, s.plan, s.now)));
          var due := desired - s.filled;
          if due <= 0 then Wait
          else
            var throttled := PpmOf(due, AdverseMultiplier(tolerance, minimumMultiplier, s));
            if throttled <= 0 then Wait else ChildAction(limits, s, throttled)
  }

  /** A child never asks for more than the parent has left, nor for more than its schedule allows by
      now, nor outside the parent's life. */
  lemma ChildWithinSchedule(policy: Policy, s: ExecutionState)
    requires policy.Valid() && s.plan.Valid() && Decide(policy, s).TakerSlice?
    ensures var size := Decide(policy, s).size;
      && 0 < size <= s.Remaining() && s.minimum <= size
      && s.filled + size <= ScheduleCeiling(policy, s.plan, s.now, s.volume)
      && s.plan.start <= s.now <= s.plan.deadline
  {
    hide FlowTarget, PovFloor, CashAffordable, Slot;
    match policy
    case Twap(slices, _) =>
      if s.now >= s.plan.deadline { TwapCompletes(slices, s.plan, s.now); }
    case AdaptivePov(p, f, t, m, _) =>
      if s.now < s.plan.deadline {
        var due := Min(s.plan.target, Max(FlowTarget(p, s.volume), PovFloor(f, s.plan, s.now))) - s.filled;
        PpmOfAtMost(due, AdverseMultiplier(t, m, s));
      }
  }

  /** At the deadline the last slot is open and the whole target is scheduled. */
  lemma TwapCompletes(slices: int, plan: ParentPlan, now: int)
    requires slices > 0 && plan.Valid() && now >= plan.deadline
    ensures TwapScheduled(slices, plan, now) == plan.target
  {
    var elapsed, duration := now - plan.start, plan.deadline - plan.start;
    MulLe(duration, elapsed, slices);
    DivLe(duration * slices, elapsed * slices, duration);
    DivBracket(duration * slices, duration, slices);
    CeilDivExact(plan.target, slices);
  }

  lemma SlotMonotone(slices: int, plan: ParentPlan, t: int, u: int)
    requires slices > 0 && plan.Valid() && t <= u
    ensures 0 < Slot(slices, plan, t) <= Slot(slices, plan, u) <= slices
  {
    var duration := plan.deadline - plan.start;
    var a, b := Max(0, t - plan.start), Max(0, u - plan.start);
    MulLe(a, b, slices);
    MulLe(0, a, slices);
    DivLe(a * slices, b * slices, duration);
    DivGe(a * slices, duration, 0);
  }

  lemma TwapMonotone(slices: int, plan: ParentPlan, t: int, u: int)
    requires slices > 0 && plan.Valid() && t <= u
    ensures 0 <= TwapScheduled(slices, plan, t) <= TwapScheduled(slices, plan, u) <= plan.target
  {
    hide Slot;
    SlotMonotone(slices, plan, t, u);
    var a, b := Slot(slices, plan, t), Slot(slices, plan, u);
    MulLe(a, b, plan.target);
    MulLe(b, slices, plan.target);
    MulLe(0, a, plan.target);
    assert plan.target * a == a * plan.target && plan.target * b == b * plan.target;
    CeilDivMonotone(0, plan.target * a, slices);
    CeilDivMonotone(plan.target * a, plan.target * b, slices);
    CeilDivMonotone(plan.target * b, plan.target * slices, slices);
    CeilDivExact(plan.target, slices);
    CeilDivExact(0, slices);
  }

  lemma ProgressMonotone(plan: ParentPlan, t: int, u: int)
    requires plan.Valid() && t <= u
    ensures Progress(plan, t) <= Progress(plan, u)
  {
    if plan.start < t && u < plan.deadline {
      MulLe(t - plan.start, u - plan.start, PPM);
      DivLe((t - plan.start) * PPM, (u - plan.start) * PPM, plan.deadline - plan.start);
    }
  }

  lemma PovMonotone(p: nat, f: nat, plan: ParentPlan, t: int, u: int, v: int, w: int)
    requires p < PPM && plan.Valid() && t <= u && 0 <= v <= w
    ensures 0 <= FlowTarget(p, v) <= FlowTarget(p, w)
    ensures 0 <= PovFloor(f, plan, t) <= PovFloor(f, plan, u)
  {
    MulLe(0, v, p);
    MulLe(v, w, p);
    DivGe(v * p, PPM - p, 0);
    DivLe(v * p, w * p, PPM - p);
    ProgressMonotone(plan, t, u);
    PpmMonotone(plan.target, Progress(plan, t), Progress(plan, u));
    PpmValueMonotone(PpmOf(plan.target, Progress(plan, t)), PpmOf(plan.target, Progress(plan, u)), f);
  }

  /** The ceiling only rises, with time and with public volume, and never exceeds the target. */
  lemma CeilingMonotone(policy: Policy, plan: ParentPlan, t: int, u: int, v: int, w: int)
    requires policy.Valid() && plan.Valid() && t <= u && 0 <= v <= w
    ensures 0 <= ScheduleCeiling(policy, plan, t, v) <= ScheduleCeiling(policy, plan, u, w) <= plan.target
  {
    hide TwapScheduled, FlowTarget, PovFloor;
    match policy
    case Twap(slices, _) => TwapMonotone(slices, plan, t, u);
    case AdaptivePov(p, f, _, _, _) => PovMonotone(p, f, plan, t, u, v, w);
  }

  /** With a zero floor, filling up to the ceiling before the deadline keeps own fills at most the
      participation share of public volume plus own fills. */
  lemma ParticipationShare(policy: Policy, plan: ParentPlan, now: int, volume: int, filled: int)
    requires policy.Valid() && plan.Valid() && policy.AdaptivePov? && policy.floorPpm == 0
    requires now < plan.deadline && 0 <= volume && 0 <= filled <= ScheduleCeiling(policy, plan, now, volume)
    ensures filled * PPM <= policy.participationPpm * (volume + filled)
  {
    var p := policy.participationPpm;
    PovMonotone(p, 0, plan, now, now, volume, volume);
    assert PovFloor(0, plan, now) == 0 by { hide Progress; }
    DivGe(volume * p, PPM - p, filled);
    assert filled * (PPM - p) == filled * PPM - p * filled;
    assert p * (volume + filled) == volume * p + p * filled;
  }

  // ---- what a child may ask for, and that it asks for all of it -----------------------------

  /** A child may be asked for: the parent is alive and unfilled, there is a ladder to take from and, for a sale,
      something to sell, and before the deadline the last child is an interval ago. */
  ghost predicate MayAct(limits: Limits, s: ExecutionState)
  {
    && s.plan.start <= s.now <= s.plan.deadline && s.filled < s.plan.target
    && (if s.plan.side.Buy? then s.asks != [] else s.bids != [] && s.inventory > 0)
    && (s.now < s.plan.deadline && s.lastAction.Some? ==> s.lastAction.value + limits.interval <= s.now)
  }

  /** Nothing is asked for otherwise. */
  lemma ElseWaits(policy: Policy, s: ExecutionState)
    requires policy.Valid() && s.plan.Valid() && !MayAct(policy.limits, s)
    ensures Decide(policy, s).Wait?
  {
  }

  lemma MayActMeans(limits: Limits, s: ExecutionState)
    ensures MayAct(limits, s) <==> !Blocked(limits, s)
  {
  }

  /** The worst price of the levels within the limit, or the limit where that is worse. */
  function WorstPrice(s: ExecutionState): int
  {
    var levels := Executable(s.plan.side, s.plan.limit, s.TakerLadder());
    if levels == [] then 0
    else
      var last: int := levels[|levels| - 1].price;
      if s.plan.limit.Some? then Max(last, s.plan.limit.value) else last
  }

  /** A child of `n` shares stays within what the parent has left, the largest child, the share of displayed
      depth, the inventory of a sale, and the cash of a buy at the worst price with the fee reserve on top. */
  ghost predicate ChildFits(limits: Limits, s: ExecutionState, n: int)
  {
    && n <= s.plan.target - s.filled
    && (limits.maxChild.Some? ==> n <= limits.maxChild.value)
    && n * PPM <= Depth(Executable(s.plan.side, s.plan.limit, s.TakerLadder())) * limits.depthPpm
    && (s.plan.side.Sell? ==> n <= s.inventory)
    && (s.plan.side.Buy? ==>
          if WorstPrice(s) <= 0 then n <= 0
          else n * (WorstPrice(s) * (PPM + limits.feeReservePpm)) <= s.cash * SCALE * PPM)
  }

  lemma ChildSizeIsBounds(limits: Limits, s: ExecutionState, requested: int, n: int)
    ensures n <= ChildSize(limits, s, requested) <==> n <= requested && ChildFits(limits, s, n)
  {
    hide Executable, Depth;
    DivGe(Depth(Executable(s.plan.side, s.plan.limit, s.TakerLadder())) * limits.depthPpm, PPM, n);
    if WorstPrice(s) > 0 {
      MulLe(1, WorstPrice(s), PPM + limits.feeReservePpm);
      DivGe(s.cash * SCALE * PPM, WorstPrice(s) * (PPM + limits.feeReservePpm), n);
    }
  }

  lemma {:induction false} ExecutableWithin(side: Side, limit: Option<int>, ladder: Ladder)
    ensures forall l <- Executable(side, limit, ladder) :: l in ladder && !Beyond(side, limit, l.price)
    ensures forall l <- ladder :: !Beyond(side, limit, l.price) ==> l in Executable(side, limit, ladder)
  {
    if ladder != [] { ExecutableWithin(side, limit, ladder[1..]); }
  }

  /** Slot `k` of the schedule: the plan is cut into as many equal slots as there are slices. */
  ghost predicate InSlot(slices: int, plan: ParentPlan, now: int, k: nat)
  {
    k < slices && plan.start <= now < plan.deadline
    && k * (plan.deadline - plan.start) <= (now - plan.start) * slices < (k + 1) * (plan.deadline - plan.start)
  }

  /** By slot `k`, `total` shares are no more than the equal slices up to it, the last one rounded up. */
  ghost predicate EvenlySpread(slices: int, target: int, k: nat, total: int)
  {
    total * slices < target * (k + 1) + slices
  }

  lemma SlotExists(slices: int, plan: ParentPlan, now: int) returns (k: nat)
    requires slices > 0 && plan.Valid() && plan.start <= now < plan.deadline
    ensures InSlot(slices, plan, now, k)
  {
    var elapsed, duration := now - plan.start, plan.deadline - plan.start;
    MulLe(0, elapsed, slices);
    MulLe(elapsed + 1, duration, slices);
    var q := elapsed * slices / duration;
    DivGe(elapsed * slices, duration, 0);
    DivGe(elapsed * slices, duration, q);
    DivGe(elapsed * slices, duration, q + 1);
    DivGe(elapsed * slices, duration, slices);
    assert duration * slices == slices * duration;
    k := q;
  }

  lemma ScheduledIsSpread(slices: int, plan: ParentPlan, now: int, k: nat, total: int)
    requires slices > 0 && plan.Valid() && InSlot(slices, plan, now, k)
    ensures total <= TwapScheduled(slices, plan, now) <==> EvenlySpread(slices, plan.target, k, total)
  {
    var elapsed, duration := now - plan.start, plan.deadline - plan.start;
    DivBracket(elapsed * slices, duration, k);
    assert Slot(slices, plan, now) == k + 1;
    CeilGe(plan.target * (k + 1), slices, total);
  }

  lemma CeilGe(a: int, d: int, n: int)
    requires d > 0
    ensures n <= CeilDiv(a, d) <==> n * d < a + d
  {
    DivGe(-a, d, 1 - n);
    assert (1 - n) * d == d - n * d;
  }

  /** One decision of TWAP before its deadline: the largest child that the slices up to now and every other bound
      allow, unless that is nothing or below the venue minimum. */
  lemma TwapDecides(policy: Policy, s: ExecutionState, k: nat)
    requires policy.Valid() && s.plan.Valid() && policy.Twap? && InSlot(policy.slices, s.plan, s.now, k)
    requires MayAct(policy.limits, s)
    ensures match Decide(policy, s)
      case TakerSlice(n) =>
        && 0 < n && s.minimum <= n
        && EvenlySpread(policy.slices, s.plan.target, k, s.filled + n) && ChildFits(policy.limits, s, n)
        && !(EvenlySpread(policy.slices, s.plan.target, k, s.filled + n + 1) && ChildFits(policy.limits, s, n + 1))
      case Wait =>
        var n := Max(1, s.minimum);
        !(EvenlySpread(policy.slices, s.plan.target, k, s.filled + n) && ChildFits(policy.limits, s, n))
  {
    hide TwapScheduled, ChildSize, ChildFits, EvenlySpread, Blocked, MayAct, InSlot;
    MayActMeans(policy.limits, s);
    var due := TwapScheduled(policy.slices, s.plan, s.now) - s.filled;
    var size := ChildSize(policy.limits, s, due);
    ScheduledIsSpread(policy.slices, s.plan, s.now, k, s.filled + size);
    ScheduledIsSpread(policy.slices, s.plan, s.now, k, s.filled + size + 1);
    ScheduledIsSpread(policy.slices, s.plan, s.now, k, s.filled + Max(1, s.minimum));
    ChildSizeIsBounds(policy.limits, s, due, size);
    ChildSizeIsBounds(policy.limits, s, due, size + 1);
    ChildSizeIsBounds(policy.limits, s, due, Max(1, s.minimum));
  }

  /** Whatever the policy, a child stays within every bound on its size and within the parent's life, and before
      the deadline keeps the interval to the child before it. */
  lemma ChildWithinBounds(policy: Policy, s: ExecutionState)
    requires policy.Valid() && s.plan.Valid() && Decide(policy, s).TakerSlice?
    ensures var n := Decide(policy, s).size;
      && 0 < n && s.minimum <= n && ChildFits(policy.limits, s, n) && s.plan.start <= s.now <= s.plan.deadline
      && (s.now < s.plan.deadline && s.lastAction.Some? ==> s.now - s.lastAction.value >= policy.limits.interval)
  {
    hide TwapScheduled, FlowTarget, PovFloor, AdverseMultiplier, ChildFits, ChildSize;
    forall requested: int ensures ChildFits(policy.limits, s, ChildSize(policy.limits, s, requested)) {
      ChildSizeIsBounds(policy.limits, s, requested, ChildSize(policy.limits, s, requested));
    }
  }

  /** At the deadline the whole rest is asked for, as far as the bounds allow. */
  lemma DeadlineDecides(policy: Policy, s: ExecutionState)
    requires policy.Valid() && s.plan.Valid() && s.now == s.plan.deadline && MayAct(policy.limits, s)
    ensures match Decide(policy, s)
      case TakerSlice(n) => 0 < n && s.minimum <= n && ChildFits(policy.limits, s, n) && !ChildFits(policy.limits, s, n + 1)
      case Wait => !ChildFits(policy.limits, s, Max(1, s.minimum))
  {
    hide TwapScheduled, ChildSize, Blocked, MayAct, FlowTarget, PovFloor, AdverseMultiplier;
    MayActMeans(policy.limits, s);
    var rest := s.plan.target - s.filled;
    if policy.Twap? { TwapCompletes(policy.slices, s.plan, s.now); }
    var size := ChildSize(policy.limits, s, rest);
    ChildSizeIsBounds(policy.limits, s, rest, size);
    ChildSizeIsBounds(policy.limits, s, rest, size + 1);
    ChildSizeIsBounds(policy.limits, s, rest, Max(1, s.minimum));
  }

  /** The flow target is the largest total that is the participation share of a tape that includes it. */
  lemma FlowTargetIsShare(participationPpm: nat, volume: nat, total: int)
    requires 0 < participationPpm < PPM
    ensures total <= FlowTarget(participationPpm, volume) <==> total * PPM <= participationPpm * (volume + total)
  {
    DivGe(volume * participationPpm, PPM - participationPpm, total);
    assert total * (PPM - participationPpm) == total * PPM - participationPpm * total;
    assert participationPpm * (volume + total) == volume * participationPpm + participationPpm * total;
  }

  /** The floor is a share of the target that has come due with time, rounded down at each step. */
  lemma FloorIsShare(floorPpm: nat, plan: ParentPlan, now: int)
    requires plan.Valid() && plan.start <= now < plan.deadline
    ensures exists progress: nat, due: nat ::
      && progress * (plan.deadline - plan.start) <= (now - plan.start) * PPM < (progress + 1) * (plan.deadline - plan.start)
      && due * PPM <= plan.target * progress < (due + 1) * PPM
      && PovFloor(floorPpm, plan, now) * PPM <= due * floorPpm < (PovFloor(floorPpm, plan, now) + 1) * PPM
  {
    var elapsed, duration := now - plan.start, plan.deadline - plan.start;
    var progress: nat := Progress(plan, now);
    MulLe(0, plan.target, progress);
    DivGe(plan.target * progress, PPM, 0);
    var due: nat := PpmOf(plan.target, progress);
    ElapsedShare(plan, now);
    Bracket(plan.target * progress, PPM);
    Bracket(due * floorPpm, PPM);
    assert progress * duration <= elapsed * PPM < (progress + 1) * duration;
  }

  lemma ElapsedShare(plan: ParentPlan, now: int)
    requires plan.Valid() && plan.start <= now < plan.deadline
    ensures var duration := plan.deadline - plan.start;
      Progress(plan, now) * duration <= (now - plan.start) * PPM < (Progress(plan, now) + 1) * duration
  {
    Bracket((now - plan.start) * PPM, plan.deadline - plan.start);
    if now == plan.start { assert (now - plan.start) * PPM == 0; }
  }

  lemma Bracket(a: int, d: int)
    requires d > 0
    ensures (a / d) * d <= a < (a / d + 1) * d
  {
    DivGe(a, d, a / d);
    DivGe(a, d, a / d + 1);
  }

  /** A price no worse than the benchmark throttles nothing; a worse one throttles no less; time relaxes it; and a
      price worse by the whole tolerance at the start throttles down to the minimum. */
  lemma ThrottleMeaning(tolerance: Option<int>, minimumMultiplier: nat, s: ExecutionState, t: ExecutionState)
    requires s.plan.Valid() && t.plan == s.plan && minimumMultiplier <= PPM && (tolerance.Some? ==> tolerance.value > 0)
    requires AdverseMove(t) <= AdverseMove(s) && s.now <= t.now
    ensures tolerance.None? || AdverseMove(s) == 0 ==> AdverseMultiplier(tolerance, minimumMultiplier, s) == PPM
    ensures minimumMultiplier <= AdverseMultiplier(tolerance, minimumMultiplier, s)
      <= AdverseMultiplier(tolerance, minimumMultiplier, t)
    ensures tolerance.Some? && AdverseMove(s) >= tolerance.value && s.now <= s.plan.start ==>
      AdverseMultiplier(tolerance, minimumMultiplier, s) == minimumMultiplier
  {
    hide AdverseMove, Progress;
    if tolerance.Some? {
      var tol := tolerance.value;
      ProgressMonotone(s.plan, s.now, t.now);
      NotStarted(s.plan, s.now);
      var a, b := AdverseMove(t) * PPM / tol, AdverseMove(s) * PPM / tol;
      if AdverseMove(t) > 0 {
        DivGe(AdverseMove(t) * PPM, tol, 0);
        DivLe(AdverseMove(t) * PPM, AdverseMove(s) * PPM, tol);
        var x, y := Min(PPM, a), Min(PPM, b);
        PpmValueMonotone(x, y, PPM - Progress(t.plan, t.now));
        PpmMonotone(y, PPM - Progress(t.plan, t.now), PPM - Progress(s.plan, s.now));
      }
      if AdverseMove(s) > 0 {
        DivGe(AdverseMove(s) * PPM, tol, PPM);
        DivGe(AdverseMove(s) * PPM, tol, 0);
        PpmOfAtMost(Min(PPM, b), PPM - Progress(s.plan, s.now));
        if AdverseMove(s) >= tol { MulLe(tol, AdverseMove(s), PPM); DivBracket(PPM * PPM, PPM, PPM); }
      }
    }
  }

  /** By how much a price is worse than the benchmark. */
  function WorseBy(side: Side, price: int, benchmark: int): int { if side.Buy? then price - benchmark else benchmark - price }

  /** `m` is the rate a price worse by `worse` leaves: its pressure, in parts of the tolerance and at most all of it, fades
      with the elapsed share of the horizon and comes off the full rate, down to the minimum. */
  ghost predicate ThrottledTo(m: int, worse: int, tolerance: int, minimumMultiplier: nat, plan: ParentPlan, now: int,
                              pressure: nat, progress: nat, cut: nat)
  {
    && (if worse >= tolerance then pressure == PPM else pressure * tolerance <= worse * PPM < (pressure + 1) * tolerance)
    && progress * (plan.deadline - plan.start) <= (now - plan.start) * PPM < (progress + 1) * (plan.deadline - plan.start)
    && cut * PPM <= pressure * (PPM - progress) < (cut + 1) * PPM
    && m == Max(minimumMultiplier, PPM - cut)
  }

  /** The throttle, exactly. What counts is the reference price, or the touch where there is none. */
  lemma ThrottleIs(tolerance: int, minimumMultiplier: nat, s: ExecutionState)
    requires s.plan.Valid() && minimumMultiplier <= PPM && tolerance > 0 && s.plan.start <= s.now < s.plan.deadline
    requires s.reference.Some? || s.TakerLadder() != []
    ensures var price := if s.reference.Some? then s.reference.value else s.TakerLadder()[0].price;
      var worse, m := WorseBy(s.plan.side, price, s.plan.benchmark), AdverseMultiplier(Some(tolerance), minimumMultiplier, s);
      if worse <= 0 then m == PPM
      else
        exists pressure: nat, progress: nat, cut: nat ::
          ThrottledTo(m, worse, tolerance, minimumMultiplier, s.plan, s.now, pressure, progress, cut)
  {
    hide Progress;
    var price := if s.reference.Some? then s.reference.value else s.TakerLadder()[0].price;
    var worse := WorseBy(s.plan.side, price, s.plan.benchmark);
    assert AdverseMove(s) == Max(0, worse);
    if worse > 0 {
      hide AdverseMove, WorseBy;
      var pressure := PressureOf(worse, tolerance);
      var progress: nat := Progress(s.plan, s.now);
      ElapsedShare(s.plan, s.now);
      var cut := CutOf(pressure, progress);
      assert ThrottledTo(AdverseMultiplier(Some(tolerance), minimumMultiplier, s), worse, tolerance, minimumMultiplier, s.plan,
        s.now, pressure, progress, cut);
    }
  }

  lemma PressureOf(worse: int, tolerance: int) returns (pressure: nat)
    requires worse > 0 && tolerance > 0
    ensures pressure == Min(PPM, worse * PPM / tolerance)
    ensures if worse >= tolerance then pressure == PPM else pressure * tolerance <= worse * PPM < (pressure + 1) * tolerance
  {
    DivGe(worse * PPM, tolerance, 0);
    DivGe(worse * PPM, tolerance, PPM);
    Bracket(worse * PPM, tolerance);
    pressure := Min(PPM, worse * PPM / tolerance);
    if worse >= tolerance { MulLe(tolerance, worse, PPM); } else { MulLe(worse + 1, tolerance, PPM); }
  }

  lemma CutOf(pressure: nat, progress: nat) returns (cut: nat)
    requires progress <= PPM
    ensures cut == PpmOf(pressure, PPM - progress) && cut * PPM <= pressure * (PPM - progress) < (cut + 1) * PPM
  {
    MulLe(0, PPM - progress, pressure);
    DivGe(pressure * (PPM - progress), PPM, 0);
    Bracket(pressure * (PPM - progress), PPM);
    cut := PpmOf(pressure, PPM - progress);
  }

  lemma NotStarted(plan: ParentPlan, now: int)
    requires plan.Valid()
    ensures now <= plan.start ==> Progress(plan, now) == 0
  {
  }

  /** A reference price no worse than the benchmark throttles nothing. */
  lemma NoWorseIsUnthrottled(tolerance: Option<int>, minimumMultiplier: nat, s: ExecutionState)
    requires s.plan.Valid() && minimumMultiplier <= PPM && (tolerance.Some? ==> tolerance.value > 0)
    requires s.reference.Some?
    requires if s.plan.side.Buy? then s.reference.value <= s.plan.benchmark else s.plan.benchmark <= s.reference.value
    ensures AdverseMultiplier(tolerance, minimumMultiplier, s) == PPM
  {
  }

  /** By now, `total` shares are within the target and either the participation share of a tape that includes them
      or the floor. */
  ghost predicate OnFlow(p: nat, floorPpm: nat, s: ExecutionState, total: int)
    requires s.plan.Valid()
  {
    total <= s.plan.target && (total * PPM <= p * (s.volume + total) || total <= PovFloor(floorPpm, s.plan, s.now))
  }

  /** What is due by the flow and the floor. */
  function FlowDue(p: nat, floorPpm: nat, s: ExecutionState): int
    requires 0 < p < PPM && s.plan.Valid()
  {
    Min(s.plan.target, Max(FlowTarget(p, s.volume), PovFloor(floorPpm, s.plan, s.now))) - s.filled
  }

  lemma FlowDueIs(p: nat, floorPpm: nat, s: ExecutionState, n: int)
    requires 0 < p < PPM && s.plan.Valid() && s.volume >= 0
    ensures n <= FlowDue(p, floorPpm, s) <==> OnFlow(p, floorPpm, s, s.filled + n)
  {
    hide PovFloor, FlowTarget;
    FlowTargetIsShare(p, s.volume, s.filled + n);
  }

  /** One decision of the adaptive policy before its deadline: the largest child within the throttled share of what
      is due and every other bound, unless that is nothing or below the venue minimum. */
  lemma PovDecides(policy: Policy, s: ExecutionState, due: int)
    requires policy.Valid() && s.plan.Valid() && policy.AdaptivePov? && s.volume >= 0 && s.now < s.plan.deadline
    requires OnFlow(policy.participationPpm, policy.floorPpm, s, s.filled + due)
    requires !OnFlow(policy.participationPpm, policy.floorPpm, s, s.filled + due + 1)
    requires due > 0 && MayAct(policy.limits, s)
    ensures var m := AdverseMultiplier(policy.tolerance, policy.minimumMultiplier, s);
      match Decide(policy, s)
      case TakerSlice(n) =>
        && 0 < n && s.minimum <= n && n * PPM <= due * m && ChildFits(policy.limits, s, n)
        && !((n + 1) * PPM <= due * m && ChildFits(policy.limits, s, n + 1))
      case Wait =>
        var n := Max(1, s.minimum);
        !(n * PPM <= due * m && ChildFits(policy.limits, s, n))
  {
    hide FlowTarget, PovFloor, AdverseMultiplier, ChildSize, ChildFits, Blocked, MayAct, OnFlow;
    MayActMeans(policy.limits, s);
    var m := AdverseMultiplier(policy.tolerance, policy.minimumMultiplier, s);
    FlowDueIs(policy.participationPpm, policy.floorPpm, s, due);
    FlowDueIs(policy.participationPpm, policy.floorPpm, s, due + 1);
    var throttled := PpmOf(due, m);
    var size := ChildSize(policy.limits, s, throttled);
    DivGe(due * m, PPM, size);
    DivGe(due * m, PPM, size + 1);
    DivGe(due * m, PPM, Max(1, s.minimum));
    ChildSizeIsBounds(policy.limits, s, throttled, size);
    ChildSizeIsBounds(policy.limits, s, throttled, size + 1);
    ChildSizeIsBounds(policy.limits, s, throttled, Max(1, s.minimum));
  }

  /** Nothing is asked for while nothing is due. */
  lemma NothingDueWaits(policy: Policy, s: ExecutionState)
    requires policy.Valid() && s.plan.Valid() && policy.AdaptivePov? && s.volume >= 0 && s.now < s.plan.deadline
    requires !OnFlow(policy.participationPpm, policy.floorPpm, s, s.filled + 1)
    ensures Decide(policy, s).Wait?
  {
    hide FlowTarget, PovFloor, AdverseMultiplier, OnFlow;
    FlowDueIs(policy.participationPpm, policy.floorPpm, s, 1);
  }
}
