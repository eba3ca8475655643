/** The volume cursor and the session that together drive one parent order. */
module Sessions {
  import opened FixedPoint
  import opened Fees
  import opened Market
  import opened Reconstruction
  import opened Sending
  import opened Policies

  datatype Result<+T> = Ok(value: T) | Error

  // ---- public volume ------------------------------------------------------------------------

  ghost predicate Sorted(trades: seq<Trade>)
  {
    forall i, j :: 0 <= i <= j < |trades| ==> trades[i].time <= trades[j].time
  }

  /** Number of leading trades stamped at or before `time`; on sorted stamps, a right bisection. */
  function CountThrough(trades: seq<Trade>, time: int): (n: nat)
    ensures n <= |trades|
    ensures forall i :: 0 <= i < n ==> trades[i].time <= time
    ensures n < |trades| ==> trades[n].time > time
  {
    if trades == [] || trades[0].time > time then 0 else 1 + CountThrough(trades[1..], time)
  }

  function VolumeIn(trades: seq<Trade>, token: Token, lo: nat, hi: nat): nat
    requires hi <= |trades|
    decreases hi
  {
    if hi <= lo then 0
    else VolumeIn(trades, token, lo, hi - 1) + if trades[hi - 1].token == token then trades[hi - 1].size else 0
  }

  /** Public volume of a token stamped from `start` through `now`, over the whole trade list. */
  function PublicVolume(trades: seq<Trade>, token: Token, start: int, now: int): nat
  {
    if trades == [] then 0
    else
      var last := trades[|trades| - 1];
      PublicVolume(trades[..|trades| - 1], token, start, now)
      + if last.token == token && start <= last.time <= now then last.size else 0
  }

  /** The index range between two bisections holds exactly the trades of the time range. */
  lemma {:induction false} VolumeIsPublic(trades: seq<Trade>, token: Token, start: int, now: int, n: nat)
    requires Sorted(trades) && n <= |trades|
    ensures PublicVolume(trades[..n], token, start, now)
         == VolumeIn(trades, token, CountThrough(trades, start - 1), Min(n, CountThrough(trades, now)))
  {
    hide CountThrough;
    if n > 0 {
      VolumeIsPublic(trades, token, start, now, n - 1);
      assert trades[..n][..n - 1] == trades[..n - 1];
      var lo, hi := CountThrough(trades, start - 1), CountThrough(trades, now);
      var t := trades[n - 1];
      assert n <= hi <==> t.time <= now;
      assert n <= lo <==> t.time <= start - 1;
    }
  }

  lemma {:induction false} PublicVolumeMonotone(trades: seq<Trade>, token: Token, start: int, t: int, u: int)
    requires t <= u
    ensures PublicVolume(trades, token, start, t) <= PublicVolume(trades, token, start, u)
  {
    if trades != [] { PublicVolumeMonotone(trades[..|trades| - 1], token, start, t, u); }
  }

  lemma CountGrows(trades: seq<Trade>, t: int, u: int)
    requires Sorted(trades) && t <= u
    ensures CountThrough(trades, t) <= CountThrough(trades, u)
  {
  }

  lemma VolumeThrough(trades: seq<Trade>, token: Token, start: int, last: int, now: int)
    requires Sorted(trades) && start - 1 <= last <= now
    ensures CountThrough(trades, start - 1) <= CountThrough(trades, last) <= CountThrough(trades, now)
    ensures VolumeIn(trades, token, CountThrough(trades, start - 1), CountThrough(trades, now))
         == PublicVolume(trades, token, start, now)
  {
    hide CountThrough, Sorted;
    CountGrows(trades, start - 1, last);
    CountGrows(trades, last, now);
    VolumeIsPublic(trades, token, start, now, |trades|);
    assert trades[..|trades|] == trades;
  }

  lemma VolumeStep(trades: seq<Trade>, token: Token, lo: nat, i: nat)
    requires lo <= i < |trades|
    ensures VolumeIn(trades, token, lo, i + 1)
         == VolumeIn(trades, token, lo, i) + if trades[i].token == token then trades[i].size else 0
  {
  }

  /** Incremental public-volume view that cannot return prints after the asked instant. */
  class CausalVolumeCursor {
    const trades: seq<Trade>
    const token: Token
    const start: int
    var position: nat
    var last: int
    var volume: nat

    ghost predicate Valid()
      reads this
    {
      && Sorted(trades) && last >= start - 1
      && position == CountThrough(trades, last)
      && volume == VolumeIn(trades, token, CountThrough(trades, start - 1), position)
    }

    constructor (trades: seq<Trade>, token: Token, start: int)
      requires Sorted(trades)
      ensures Valid() && last == start - 1
      ensures this.trades == trades && this.token == token && this.start == start
    {
      this.trades, this.token, this.start := trades, token, start;
      position, last, volume := CountThrough(trades, start - 1), start - 1, 0;
    }

    /** Cumulative volume from the start through `now`, no more and no less. */
    method Advance(now: int) returns (r: Result<nat>)
      requires Valid()
      modifies this
      ensures Valid()
      ensures r.Error? <==> now < old(last)
      ensures r.Error? ==> last == old(last)
      ensures r.Ok? ==> last == now && r.value == PublicVolume(trades, token, start, now)
    {
      if now < last {
        return Error;
      }
      hide Sorted, CountThrough, VolumeIn, PublicVolume;
      VolumeThrough(trades, token, start, last, now);
      var end := CountThrough(trades, now);
      volume := Accumulate(trades, token, CountThrough(trades, start - 1), position, end, volume);
      position, last := end, now;
      return Ok(volume);
    }

    /** Adds the prints between two positions. */
    static method Accumulate(trades: seq<Trade>, token: Token, ghost lo: nat, position: nat, end: nat, volume: nat)
      returns (total: nat)
      requires lo <= position <= end <= |trades| && volume == VolumeIn(trades, token, lo, position)
      ensures total == VolumeIn(trades, token, lo, end)
    {
      hide VolumeIn;
      total := volume;
      for i := position to end
        invariant total == VolumeIn(trades, token, lo, i)
      {
        VolumeStep(trades, token, lo, i);
        if trades[i].token == token {
          total := total + trades[i].size;
        }
      }
    }
  }

  // ---- scoring ------------------------------------------------------------------------------

  datatype Fill = Fill(time: int, shares: nat, price: nat, fee: int)

  function FillShares(fills: seq<Fill>): nat
  {
    if fills == [] then 0 else FillShares(fills[..|fills| - 1]) + fills[|fills| - 1].shares
  }

  function FillNotional(fills: seq<Fill>): nat
  {
    if fills == [] then 0
    else FillNotional(fills[..|fills| - 1]) + Notional(fills[|fills| - 1].shares, fills[|fills| - 1].price)
  }

  function FillFees(fills: seq<Fill>): int
  {
    if fills == [] then 0 else FillFees(fills[..|fills| - 1]) + fills[|fills| - 1].fee
  }

  function AdverseMarkout(side: Side, fills: seq<Fill>, mark: int): nat
  {
    if fills == [] then 0
    else
      var f := fills[|fills| - 1];
      AdverseMarkout(side, fills[..|fills| - 1], mark)
      + Notional(f.shares, Max(0, if side.Buy? then f.price - mark else mark - f.price))
  }

  datatype Objective = Objective(
    filled: int, unfilled: int, rawShortfall: int, shortfall: int, nonFill: int, adverse: int, total: int)

  /** Scores a parent at or after its deadline. */
  function Evaluate(plan: ParentPlan, fills: seq<Fill>, time: int, mark: Option<int>): Result<Objective>
    requires plan.Valid()
  {
    if time < plan.deadline then Error
    else if plan.adversePpm != 0 && (mark.None? || mark.value <= 0) then Error
    else if exists f <- fills :: f.time > plan.deadline then Error
    else if FillShares(fills) > plan.target then Error
    else
      var filled := FillShares(fills);
      var unfilled := plan.target - filled;
      var benchmark := Notional(filled, plan.benchmark);
      var raw :=
        if plan.side.Buy? then FillNotional(fills) + FillFees(fills) - benchmark
        else benchmark - (FillNotional(fills) - FillFees(fills));
      var adverse := if mark.Some? then AdverseMarkout(plan.side, fills, mark.value) else 0;
      var shortfall := PpmOf(raw, plan.shortfallPpm);
      var nonFill := PpmOf(Notional(unfilled, plan.benchmark), plan.nonFillPpm);
      var penalty := PpmOf(adverse, plan.adversePpm);
      Ok(Objective(filled, unfilled, raw, shortfall, nonFill, penalty, shortfall + nonFill + penalty))
  }

  /** The fills a list of slices leaves behind, all stamped at one arrival. */
  function FillsOf(slices: seq<Slice>, time: int): seq<Fill>
  {
    if slices == [] then []
    else
      var s := slices[|slices| - 1];
      FillsOf(slices[..|slices| - 1], time) + [Fill(time, s.size, s.price, s.fee)]
  }

  lemma {:induction false} FillsAppend(a: seq<Fill>, b: seq<Fill>)
    ensures FillShares(a + b) == FillShares(a) + FillShares(b)
    ensures FillNotional(a + b) == FillNotional(a) + FillNotional(b)
    ensures FillFees(a + b) == FillFees(a) + FillFees(b)
  {
    hide Notional;
    if b == [] {
      assert a + b == a;
    } else {
      assert (a + b)[..|a + b| - 1] == a + b[..|b| - 1];
      FillsAppend(a, b[..|b| - 1]);
    }
  }

  /** Fills of priced slices carry the tally of those slices. */
  lemma {:induction false} FillsTally(fee: FeeConfig, slices: seq<Slice>, time: int)
    requires fee.Valid() && AllPriced(fee, slices)
    ensures var fills, t := FillsOf(slices, time), TallyOf(slices);
      && FillShares(fills) == t.size && FillNotional(fills) == t.notional && FillFees(fills) == t.fee
      && forall f <- fills :: f.time == time
  {
    hide Notional, Fee;
    if slices != [] {
      var init, s := slices[..|slices| - 1], slices[|slices| - 1];
      FillsTally(fee, init, time);
      assert Priced(fee, s);
      assert FillsOf(slices, time)[..|FillsOf(init, time)|] == FillsOf(init, time);
    }
  }

  // ---- the session --------------------------------------------------------------------------

  /** An immediate child that was decided and whose outcome is still outstanding. */
  datatype Child = Child(size: int, decision: int)

  datatype SessionState = SessionState(
    cash: int, inventory: int, filled: int, fills: seq<Fill>,
    lastAction: Option<int>, lastDecision: Option<int>, notBefore: int, pending: Option<Child>)
  {
    function At(plan: ParentPlan, now: int, bids: Ladder, asks: Ladder, volume: int, minimum: int,
                reference: Option<int>): ExecutionState
    {
      ExecutionState(plan, now, filled, inventory, cash, bids, asks, volume, minimum, lastAction, reference)
    }
  }

  function Decided(s: SessionState, now: int, action: Action): SessionState
  {
    var seen := s.(lastDecision := Some(now));
    if action.Wait? then seen
    else seen.(lastAction := Some(now), pending := Some(Child(action.size, now)))
  }

  /** The guards of recording an outcome. */
  predicate Refused(plan: ParentPlan, s: SessionState, o: Outcome)
  {
    s.pending.None? ||
    var t := TallyOf(o.slices);
    || o.requested != s.pending.value.size || o.decision != s.pending.value.decision
    || o.arrival < o.decision || (o.arrival > plan.deadline && o.filled > 0)
    || t != Tally(o.filled, o.notional, o.fees)
    || (exists i <- o.slices :: i.size <= 0 || i.price <= 0 || i.fee < 0)
    || t.size > s.pending.value.size || t.size > plan.target - s.filled
    || (if plan.side.Buy? then o.notional + o.fees > s.cash
        else t.size > s.inventory || s.cash + o.notional - o.fees < 0)
  }

  function AfterOutcome(plan: ParentPlan, s: SessionState, o: Outcome): SessionState
  {
    var size := TallyOf(o.slices).size;
    s.(cash := if plan.side.Buy? then s.cash - (o.notional + o.fees) else s.cash + o.notional - o.fees,
       inventory := if plan.side.Buy? then s.inventory + size else s.inventory - size,
       filled := s.filled + size, fills := s.fills + FillsOf(o.slices, o.arrival),
       notBefore := Max(s.notBefore, o.arrival), pending := None)
  }

  /** What every session keeps, whatever the caller does: fills within the target and the parent's life,
      cash and inventory never negative, and fills plus the outstanding child within the schedule as of
      the last decision. */
  ghost predicate Keeps(plan: ParentPlan, policy: Policy, trades: seq<Trade>, token: Token, s: SessionState)
    requires plan.Valid() && policy.Valid()
  {
    && 0 <= s.filled <= plan.target && s.cash >= 0 && s.inventory >= 0
    && s.filled == FillShares(s.fills)
    && (forall f <- s.fills :: f.time <= plan.deadline)
    && (s.lastDecision.None? ==> s.filled == 0 && s.pending.None? && s.lastAction.None?)
    && (s.lastDecision.Some? ==>
          var d := s.lastDecision.value;
          var outstanding := if s.pending.Some? then s.pending.value.size else 0;
          && (s.lastAction.Some? ==> s.lastAction.value <= d)
          && (s.pending.Some? ==> s.pending.value.decision <= d && s.pending.value.size > 0)
          && s.filled + outstanding <= ScheduleCeiling(policy, plan, d, PublicVolume(trades, token, plan.start, d)))
  }

  /** Time passes: the ceiling rises and everything else stays. */
  lemma LaterDecision(plan: ParentPlan, policy: Policy, trades: seq<Trade>, token: Token, s: SessionState, now: int)
    requires plan.Valid() && policy.Valid() && Keeps(plan, policy, trades, token, s)
    requires s.lastDecision.Some? ==> s.lastDecision.value <= now
    ensures Keeps(plan, policy, trades, token, s.(lastDecision := Some(now)))
  {
    hide ScheduleCeiling, PublicVolume;
    var v := PublicVolume(trades, token, plan.start, now);
    CeilingMonotone(policy, plan, now, now, v, v);
    if s.lastDecision.Some? {
      var d := s.lastDecision.value;
      PublicVolumeMonotone(trades, token, plan.start, d, now);
      CeilingMonotone(policy, plan, d, now, PublicVolume(trades, token, plan.start, d), v);
    }
  }

  lemma {:induction false} FillsStamped(slices: seq<Slice>, time: int)
    ensures FillShares(FillsOf(slices, time)) == TallyOf(slices).size
    ensures forall f <- FillsOf(slices, time) :: f.time == time
    ensures |FillsOf(slices, time)| == |slices|
  {
    if slices != [] {
      var init := slices[..|slices| - 1];
      FillsStamped(init, time);
      assert FillsOf(slices, time)[..|FillsOf(init, time)|] == FillsOf(init, time);
    }
  }

  lemma {:induction false} TallyOfPositive(slices: seq<Slice>)
    requires forall i <- slices :: i.size > 0
    ensures TallyOf(slices).size >= |slices|
  {
    if slices != [] { TallyOfPositive(slices[..|slices| - 1]); }
  }

  lemma OutcomeKeeps(plan: ParentPlan, policy: Policy, trades: seq<Trade>, token: Token, s: SessionState, o: Outcome)
    requires plan.Valid() && policy.Valid() && Keeps(plan, policy, trades, token, s)
    requires !Refused(plan, s, o)
    ensures Keeps(plan, policy, trades, token, AfterOutcome(plan, s, o))
  {
    hide ScheduleCeiling, PublicVolume, FillsOf, FillShares;
    FillsStamped(o.slices, o.arrival);
    TallyOfPositive(o.slices);
    FillsAppend(s.fills, FillsOf(o.slices, o.arrival));
  }

  /** Cash moved by exactly what the recorded fills cost or brought in. */
  ghost predicate CashMatches(plan: ParentPlan, initialCash: int, s: SessionState)
  {
    s.cash == if plan.side.Buy? then initialCash - FillNotional(s.fills) - FillFees(s.fills)
              else initialCash + FillNotional(s.fills) - FillFees(s.fills)
  }

  lemma OutcomeCashMatches(plan: ParentPlan, fee: FeeConfig, initialCash: int, s: SessionState, o: Outcome)
    requires fee.Valid() && AllPriced(fee, o.slices) && !Refused(plan, s, o)
    requires CashMatches(plan, initialCash, s)
    ensures CashMatches(plan, initialCash, AfterOutcome(plan, s, o))
  {
    hide Priced;
    FillsTally(fee, o.slices, o.arrival);
    FillsAppend(s.fills, FillsOf(o.slices, o.arrival));
  }

  /** The session object. It owns the volume cursor, the wallet and inventory, the fill history and the
      one outstanding child. */
  class SequentialExecutionSession {
    const plan: ParentPlan
    const policy: Policy
    const cursor: CausalVolumeCursor
    var state: SessionState

    ghost predicate Valid()
      reads this, cursor
    {
      && plan.Valid() && policy.Valid()
      && cursor.Valid() && cursor.start == plan.start
      && (cursor.last == if state.lastDecision.Some? then state.lastDecision.value else plan.start - 1)
      && Keeps(plan, policy, cursor.trades, cursor.token, state)
    }

    constructor (plan: ParentPlan, policy: Policy, cursor: CausalVolumeCursor, cash: nat, inventory: nat)
      requires plan.Valid() && policy.Valid()
      requires cursor.Valid() && cursor.start == plan.start && cursor.last == plan.start - 1
      ensures Valid() && this.plan == plan && this.policy == policy && this.cursor == cursor
      ensures state == SessionState(cash, inventory, 0, [], None, None, plan.start, None)
    {
      this.plan, this.policy, this.cursor := plan, policy, cursor;
      state := SessionState(cash, inventory, 0, [], None, None, plan.start, None);
    }

    /** The state the policy would see, were it asked now. */
    ghost function Seen(now: int, bids: Ladder, asks: Ladder, minimum: int, reference: Option<int>): ExecutionState
      reads this, cursor
    {
      state.At(plan, now, bids, asks, PublicVolume(cursor.trades, cursor.token, plan.start, now), minimum, reference)
    }

    /** Checks a state before the policy sees it. */
    static method Check(s: ExecutionState) returns (ok: bool)
      ensures ok <==> Admissible(s)
    {
      ok := 0 <= s.filled <= s.plan.target && s.inventory >= 0 && s.cash >= 0 && s.volume >= 0
        && s.minimum >= 0 && (s.lastAction.Some? ==> s.lastAction.value <= s.now)
        && (s.reference.Some? ==> s.reference.value > 0);
      var bidsOk := CheckLadder(Sell, s.bids);
      var asksOk := CheckLadder(Buy, s.asks);
      ok := ok && bidsOk && asksOk;
    }

    static method CheckLadder(side: Side, ladder: Ladder) returns (ok: bool)
      ensures ok <==> Positive(ladder) && BestFirst(side, ladder)
    {
      for i := 0 to |ladder|
        invariant forall j :: 0 <= j < i ==> ladder[j].price > 0 && ladder[j].size > 0
        invariant forall j, k :: 0 <= j < k < i ==> Better(side, ladder[j].price, ladder[k].price)
      {
        if ladder[i].price == 0 || ladder[i].size == 0 {
          assert ladder[i] in ladder;
          return false;
        }
        if i > 0 && !Better(side, ladder[i - 1].price, ladder[i].price) {
          return false;
        }
      }
      return true;
    }

    /** The next child decision. It is an error to decide backwards in time, or on a state that is not
        admissible when no child is outstanding and the previous one has arrived. */
    method Decide(now: int, bids: Ladder, asks: Ladder, minimum: int, reference: Option<int>)
      returns (r: Result<Action>)
      requires Valid()
      modifies this, cursor
      ensures Valid()
      ensures r.Error? <==>
        || (old(state).lastDecision.Some? && now < old(state).lastDecision.value)
        || now < plan.start - 1
        || (old(state).pending.None? && now >= old(state).notBefore
            && !Admissible(old(Seen(now, bids, asks, minimum, reference))))
      ensures r.Ok? ==> (r.value ==
        if old(state).pending.Some? || now < old(state).notBefore then Wait
        else Policies.Decide(policy, old(Seen(now, bids, asks, minimum, reference))))
      ensures r.Ok? ==> state == Decided(old(state), now, r.value)
    {
      if state.lastDecision.Some? && now < state.lastDecision.value {
        return Error;
      }
      var observed := cursor.Advance(now);
      if observed.Error? {
        return Error;
      }
      LaterDecision(plan, policy, cursor.trades, cursor.token, state, now);
      state := state.(lastDecision := Some(now));
      if state.pending.Some? {
        return Ok(Wait);
      }
      if now < state.notBefore {
        return Ok(Wait);
      }
      var s := state.At(plan, now, bids, asks, observed.value, minimum, reference);
      var ok := Check(s);
      if !ok {
        return Error;
      }
      var action := Policies.Decide(policy, s);
      if action.TakerSlice? {
        ChildWithinSchedule(policy, s);
        state := state.(pending := Some(Child(action.size, now)), lastAction := Some(now));
      }
      return Ok(action);
    }

    /** Atomically applies the outcome of the outstanding child. */
    method RecordOutcome(o: Outcome) returns (ok: bool)
      requires Valid()
      modifies this`state
      ensures Valid()
      ensures ok <==> !Refused(plan, old(state), o)
      ensures state == if ok then AfterOutcome(plan, old(state), o) else old(state)
    {
      if Refused(plan, state, o) {
        return false;
      }
      OutcomeKeeps(plan, policy, cursor.trades, cursor.token, state, o);
      state := AfterOutcome(plan, state, o);
      return true;
    }

    method EvaluateAt(time: int, mark: Option<int>) returns (r: Result<Objective>)
      requires Valid()
      ensures r == if state.pending.Some? then Error else Evaluate(plan, state.fills, time, mark)
    {
      if state.pending.Some? {
        return Error;
      }
      return Evaluate(plan, state.fills, time, mark);
    }
  }

  /** At or after the deadline, with no child outstanding, scoring succeeds exactly when adverse scoring is
      off or has a positive mark; and cash spent by a buy equals its benchmark cost plus the raw shortfall. */
  lemma EvaluationSucceeds(plan: ParentPlan, policy: Policy, trades: seq<Trade>, token: Token,
                           s: SessionState, initialCash: int, time: int, mark: Option<int>)
    requires plan.Valid() && policy.Valid() && Keeps(plan, policy, trades, token, s) && time >= plan.deadline
    ensures var r := Evaluate(plan, s.fills, time, mark);
      && (r.Ok? <==> plan.adversePpm == 0 || (mark.Some? && mark.value > 0))
      && (r.Ok? ==> r.value.filled == s.filled && r.value.filled + r.value.unfilled == plan.target)
      && (r.Ok? && plan.side.Buy? && CashMatches(plan, initialCash, s) ==>
            initialCash - s.cash == Notional(s.filled, plan.benchmark) + r.value.rawShortfall)
  {
  }
}
