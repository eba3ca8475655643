/** One episode of the threshold-and-hold strategy: entry, exits, retries and settlement. */
module Episodes {
  import opened FixedPoint
  import opened Fees
  import opened Market
  import opened TakerWalk
  import opened Affordability
  import opened Reconstruction
  import opened Tapes
  import opened Sending
  import opened Policies
  import opened Sessions
  import opened ParentDriver

  datatype EntryPolicy = Immediate | Sequential(policy: Policy)

  /** Parameters of one strategy variant; durations are in nanoseconds. */
  datatype Params = Params(
    entryFrom: nat, entryTo: nat, trigger: int, limit: int, allowed: set<Token>,
    orderShares: Option<int>, orderNotional: Option<int>, allowPartial: bool,
    maxEntries: int, cooldown: nat, entry: EntryPolicy, horizon: nat,
    stop: Option<int>, stopFrom: Option<nat>, stopFractionPpm: nat,
    takeProfit: Option<int>, takeProfitFractionPpm: nat,
    retryLimit: nat, retryInterval: nat, flattenBefore: Option<nat>)
  {
    ghost predicate Valid()
    {
      && 0 < trigger <= limit
      && (orderShares.None? <==> orderNotional.Some?)
      && (orderShares.Some? ==> orderShares.value > 0)
      && (orderNotional.Some? ==> orderNotional.value > 0)
      && 0 < stopFractionPpm <= PPM && 0 < takeProfitFractionPpm <= PPM
      && (entry.Sequential? ==> entry.policy.Valid())
    }
  }

  datatype Kind = Entry | StopLoss | TakeProfit | Flatten

  /** One order the strategy sent, for which token and how many shares, and what the book gave it. */
  datatype SimulatedOrder = SimulatedOrder(
    kind: Kind, token: Token, decision: int, arrival: int, requested: int, filled: int, notional: int, fees: int)

  function OrderFrom(kind: Kind, token: Token, o: Outcome): SimulatedOrder
  {
    SimulatedOrder(kind, token, o.decision, o.arrival, o.requested, o.filled, o.notional, o.fees)
  }

  function OrdersFrom(token: Token, outcomes: seq<Outcome>): seq<SimulatedOrder>
  {
    seq(|outcomes|, i requires 0 <= i < |outcomes| => OrderFrom(Entry, token, outcomes[i]))
  }

  datatype ExitReason = NoEntry | Settlement | StoppedOut | TookProfit | Flattened | StopUnfilledHeld

  /** The variables of the main loop. */
  datatype Run = Run(
    orders: seq<SimulatedOrder>, shares: int, cost: int, token: Token, effective: int,
    entries: int, nextEntry: int, debited: int, entered: bool, block: (nat, nat),
    stopActive: bool, stopAttempts: nat, stopDeadline: Option<int>,
    takeProfitTried: bool, flattenTried: bool,
    reason: ExitReason, entryShares: int, exitShares: int, exitNotional: int, fees: int)

  function StartOf(p: Params, tape: EpisodeTape): Run
  {
    Run([], 0, 0, 0, 0, 0, tape.start + p.entryFrom, 0, false, (0, 0),
        false, 0, None, false, false, NoEntry, 0, 0, 0, 0)
  }

  // ---- sums over orders ---------------------------------------------------------------------

  function BuyCost(orders: seq<SimulatedOrder>): int
  {
    if orders == [] then 0
    else
      var o := orders[|orders| - 1];
      BuyCost(orders[..|orders| - 1]) + if o.kind.Entry? then o.notional + o.fees else 0
  }

  function SellProceeds(orders: seq<SimulatedOrder>): int
  {
    if orders == [] then 0
    else
      var o := orders[|orders| - 1];
      SellProceeds(orders[..|orders| - 1]) + if o.kind.Entry? then 0 else o.notional - o.fees
  }

  function SoldShares(orders: seq<SimulatedOrder>): int
  {
    if orders == [] then 0
    else
      var o := orders[|orders| - 1];
      SoldShares(orders[..|orders| - 1]) + if o.kind.Entry? then 0 else o.filled
  }

  function BoughtShares(orders: seq<SimulatedOrder>): int
  {
    if orders == [] then 0
    else
      var o := orders[|orders| - 1];
      BoughtShares(orders[..|orders| - 1]) + if o.kind.Entry? then o.filled else 0
  }

  function EntryNotional(orders: seq<SimulatedOrder>): int
  {
    if orders == [] then 0
    else
      var o := orders[|orders| - 1];
      EntryNotional(orders[..|orders| - 1]) + if o.kind.Entry? then o.notional else 0
  }

  function ExitNotional(orders: seq<SimulatedOrder>): int
  {
    if orders == [] then 0
    else
      var o := orders[|orders| - 1];
      ExitNotional(orders[..|orders| - 1]) + if o.kind.Entry? then 0 else o.notional
  }

  function FeesPaid(orders: seq<SimulatedOrder>): int
  {
    if orders == [] then 0 else FeesPaid(orders[..|orders| - 1]) + orders[|orders| - 1].fees
  }

  function CountOf(orders: seq<SimulatedOrder>, kind: Kind): nat
  {
    if orders == [] then 0
    else CountOf(orders[..|orders| - 1], kind) + if orders[|orders| - 1].kind == kind then 1 else 0
  }

  lemma OneMoreOrder(orders: seq<SimulatedOrder>, o: SimulatedOrder)
    ensures BuyCost(orders + [o]) == BuyCost(orders) + if o.kind.Entry? then o.notional + o.fees else 0
    ensures SellProceeds(orders + [o]) == SellProceeds(orders) + if o.kind.Entry? then 0 else o.notional - o.fees
    ensures SoldShares(orders + [o]) == SoldShares(orders) + if o.kind.Entry? then 0 else o.filled
    ensures BoughtShares(orders + [o]) == BoughtShares(orders) + if o.kind.Entry? then o.filled else 0
    ensures EntryNotional(orders + [o]) == EntryNotional(orders) + if o.kind.Entry? then o.notional else 0
    ensures ExitNotional(orders + [o]) == ExitNotional(orders) + if o.kind.Entry? then 0 else o.notional
    ensures FeesPaid(orders + [o]) == FeesPaid(orders) + o.fees
    ensures forall k: Kind :: CountOf(orders + [o], k) == CountOf(orders, k) + if o.kind == k then 1 else 0
  {
  }

  // ---- what a run keeps ---------------------------------------------------------------------

  /** An order without a fill moves no shares and no cash; a fill arrives inside the market. */
  ghost predicate OrderOk(o: SimulatedOrder, start: int, end: int)
  {
    && start <= o.decision <= o.arrival
    && o.filled >= 0 && o.notional >= 0 && o.fees >= 0
    && (o.filled == 0 ==> o.notional == 0 && o.fees == 0)
    && (o.filled > 0 ==> o.arrival < end)
  }

  /** Every filled buy, together with all buys before it, fits the cash available at its arrival. */
  ghost predicate Affordable(orders: seq<SimulatedOrder>, cash: CashSource)
  {
    cash.Some? ==>
      forall i :: 0 <= i < |orders| && FilledBuy(orders[i]) ==>
        cash.value.requires(orders[i].arrival)
        && BuyCost(orders[..i + 1]) <= Max(0, cash.value(orders[i].arrival))
  }

  /** No exit is decided before an earlier fill or an earlier exit attempt has arrived. */
  ghost predicate ExitsWait(orders: seq<SimulatedOrder>)
  {
    forall i, j :: 0 <= i < j < |orders| && !orders[j].kind.Entry? && Anchors(orders[i]) ==>
      orders[i].arrival <= orders[j].decision
  }

  predicate FilledBuy(o: SimulatedOrder) { o.kind.Entry? && o.filled > 0 }

  /** A fill, or an exit attempt: what a later exit must not overtake. */
  predicate Anchors(o: SimulatedOrder) { o.filled > 0 || !o.kind.Entry? }

  /** Filled buys arrive in the order they were sent. */
  ghost predicate BuysInOrder(orders: seq<SimulatedOrder>)
  {
    forall i, j :: 0 <= i < j < |orders| && FilledBuy(orders[i]) && FilledBuy(orders[j]) ==>
      orders[i].arrival <= orders[j].arrival
  }

  /** All filled entry orders are the children of one parent: they lie in one block, everything after the
      block is an exit, and before an entry there is no exit. */
  ghost predicate OneParent(p: Params, r: Run)
  {
    && (p.entry.Immediate? ==> r.block.1 <= r.block.0 + 1)
    && r.block.0 <= r.block.1 <= |r.orders|
    && (forall i :: 0 <= i < |r.orders| && FilledBuy(r.orders[i]) ==>
          r.block.0 <= i < r.block.1)
    && (!r.entered ==> r.block == (0, 0) && forall o <- r.orders :: o.kind.Entry?)
    && (r.entered ==> forall i :: r.block.1 <= i < |r.orders| ==> !r.orders[i].kind.Entry?)
    && (r.entered ==> forall i :: 0 <= i < r.block.1 ==> r.orders[i].kind.Entry?)
    && Chained(r.orders, r.block.0, r.block.1)
  }

  /** The orders of a block follow one another: each was decided once the one before it had arrived. */
  ghost predicate Chained(orders: seq<SimulatedOrder>, lo: nat, hi: nat)
    requires lo <= hi <= |orders|
  {
    forall i :: lo < i < hi ==> orders[i - 1].arrival <= orders[i].decision
  }

  /** The stop, take-profit and flatten counters tell the truth and stay within their limits. */
  ghost predicate Counted(p: Params, r: Run)
  {
    && CountOf(r.orders, TakeProfit) == (if r.takeProfitTried then 1 else 0)
    && CountOf(r.orders, Flatten) == (if r.flattenTried then 1 else 0)
    && CountOf(r.orders, StopLoss) <= p.retryLimit + 1
    && (!r.entered || r.shares > 0 ==>
          && CountOf(r.orders, StopLoss) == r.stopAttempts
          && (r.stopActive <==> r.stopAttempts > 0)
          && (r.stopDeadline.Some? ==> r.stopAttempts <= p.retryLimit))
  }

  /** Shares and money balance. */
  ghost predicate Balanced(r: Run)
  {
    && r.shares >= 0 && r.exitShares >= 0
    && r.entryShares == BoughtShares(r.orders) && r.exitShares == SoldShares(r.orders)
    && r.entryShares == r.exitShares + r.shares
    && r.exitNotional - r.cost - r.fees == SellProceeds(r.orders) - BuyCost(r.orders)
    && r.cost == EntryNotional(r.orders) && r.exitNotional == ExitNotional(r.orders) && r.fees == FeesPaid(r.orders)
    && (r.entered <==> r.entryShares > 0)
    && (!r.entered ==> BuyCost(r.orders) == 0 && r.cost == 0 && r.fees == 0 && r.debited == 0)
  }

  /** Everything filled, and every exit, is in the token held. */
  ghost predicate OneToken(r: Run)
  {
    forall o <- r.orders :: Anchors(o) ==> o.token == r.token
  }

  ghost predicate Kept(p: Params, tape: EpisodeTape, cash: CashSource, r: Run)
  {
    && (forall o <- r.orders :: OrderOk(o, tape.start, tape.end))
    && Affordable(r.orders, cash) && ExitsWait(r.orders) && BuysInOrder(r.orders)
    && OneParent(p, r) && Counted(p, r) && Balanced(r) && OneToken(r)
    && (forall o <- r.orders :: Anchors(o) ==> o.arrival <= r.effective)
    && (r.entered ==> tape.start <= r.effective)
    && tape.start + p.entryFrom <= r.nextEntry && 0 <= r.entries
  }

  // ---- exits --------------------------------------------------------------------------------

  /** The exit decided on one row while holding, if any: its kind and the shares it offers. */
  function ChooseExit(p: Params, tape: EpisodeTape, r: Run, bid: Option<int>, time: int): Option<(Kind, int)>
  {
    var flattenDue := !r.flattenTried && p.flattenBefore.Some? && time >= tape.end - p.flattenBefore.value;
    var armed := p.stopFrom.None? || time >= tape.start + p.stopFrom.value;
    var choice :=
      if r.stopActive then
        if r.stopDeadline.Some? && time >= r.stopDeadline.value then Some((StopLoss, r.shares))
        else if flattenDue then Some((Flatten, r.shares))
        else None
      else if p.stop.Some? && armed && (bid.None? || bid.value <= p.stop.value)
        then Some((StopLoss, r.shares * p.stopFractionPpm / PPM))
      else if p.takeProfit.Some? && !r.takeProfitTried && bid.Some? && bid.value >= p.takeProfit.value
        then Some((TakeProfit, r.shares * p.takeProfitFractionPpm / PPM))
      else if flattenDue then Some((Flatten, r.shares))
      else None;
    if choice.Some? && choice.value.1 <= 0 then None else choice
  }

  function ReasonOf(kind: Kind): ExitReason
  {
    match kind
    case Entry => NoEntry
    case StopLoss => StoppedOut
    case TakeProfit => TookProfit
    case Flatten => Flattened
  }

  /** Bookkeeping after an exit attempt decided at `time`. */
  function AfterExit(p: Params, r: Run, o: SimulatedOrder, time: int): Run
  {
    var shares := r.shares - o.filled;
    var stopped := o.kind.StopLoss? && shares > 0;
    var attempts := if stopped then r.stopAttempts + 1 else r.stopAttempts;
    r.(orders := r.orders + [o], shares := shares,
       exitShares := r.exitShares + o.filled, exitNotional := r.exitNotional + o.notional, fees := r.fees + o.fees,
       reason := ReasonOf(o.kind),
       takeProfitTried := r.takeProfitTried || o.kind.TakeProfit?,
       flattenTried := r.flattenTried || o.kind.Flatten?,
       effective := Max(r.effective, o.arrival),
       stopActive := r.stopActive || stopped, stopAttempts := attempts,
       stopDeadline :=
         if stopped && Max(0, attempts - 1) < p.retryLimit then Some(Max(time, o.arrival) + p.retryInterval)
         else None)
  }

  /** What the exit decision guarantees about its kind. */
  ghost predicate Permitted(r: Run, kind: Kind)
  {
    match kind
    case Entry => false
    case StopLoss => !r.stopActive || r.stopDeadline.Some?
    case TakeProfit => !r.takeProfitTried
    case Flatten => !r.flattenTried
  }

  lemma ChosenPermitted(p: Params, tape: EpisodeTape, r: Run, bid: Option<int>, time: int)
    requires p.Valid() && r.shares > 0
    ensures var c := ChooseExit(p, tape, r, bid, time);
      c.Some? ==> Permitted(r, c.value.0) && 0 < c.value.1 <= r.shares
  {
    MulLe(p.stopFractionPpm, PPM, r.shares);
    MulLe(p.takeProfitFractionPpm, PPM, r.shares);
    assert r.shares * p.stopFractionPpm == p.stopFractionPpm * r.shares;
    assert r.shares * p.takeProfitFractionPpm == p.takeProfitFractionPpm * r.shares;
    DivLe(r.shares * p.stopFractionPpm, PPM * r.shares, PPM);
    DivLe(r.shares * p.takeProfitFractionPpm, PPM * r.shares, PPM);
    DivBracket(PPM * r.shares, PPM, r.shares);
  }

  /** Appending an exit keeps every ordering and affordability fact about the orders before it. */
  lemma ExitOrdersKept(orders: seq<SimulatedOrder>, o: SimulatedOrder, cash: CashSource, effective: int)
    requires !o.kind.Entry? && effective <= o.decision
    requires Affordable(orders, cash) && ExitsWait(orders) && BuysInOrder(orders)
    requires forall a <- orders :: Anchors(a) ==> a.arrival <= effective
    ensures Affordable(orders + [o], cash) && ExitsWait(orders + [o]) && BuysInOrder(orders + [o])
  {
    hide BuyCost;
    var all := orders + [o];
    assert forall i :: 0 <= i < |orders| ==> all[i] == orders[i] && all[i] in orders && all[..i + 1] == orders[..i + 1];
  }

  lemma ExitKept(p: Params, tape: EpisodeTape, cash: CashSource, r: Run, o: SimulatedOrder, time: int)
    requires Kept(p, tape, cash, r) && r.shares > 0 && r.effective <= time == o.decision
    requires Permitted(r, o.kind) && OrderOk(o, tape.start, tape.end) && o.filled <= r.shares && o.token == r.token
    ensures Kept(p, tape, cash, AfterExit(p, r, o, time))
  {
    hide BuyCost, SellProceeds, SoldShares, BoughtShares, CountOf, EntryNotional, ExitNotional, FeesPaid, Affordable,
      ExitsWait, BuysInOrder;
    OneMoreOrder(r.orders, o);
    ExitOrdersKept(r.orders, o, cash, r.effective);
    var all := r.orders + [o];
    assert forall i :: 0 <= i < |r.orders| ==> all[i] == r.orders[i];
  }

  // ---- entries ------------------------------------------------------------------------------

  function FeesOf(outcomes: seq<Outcome>): int
  {
    if outcomes == [] then 0 else FeesOf(outcomes[..|outcomes| - 1]) + outcomes[|outcomes| - 1].fees
  }

  /** Bookkeeping after one parent entry decided at `time`, with the orders it sent. */
  function AfterEntry(r: Run, outcomes: seq<Outcome>, token: Token, counted: bool, nextEntry: int, effective: int): Run
  {
    var orders := r.orders + OrdersFrom(token, outcomes);
    var sent := r.(orders := orders, entries := if counted then r.entries + 1 else r.entries, nextEntry := nextEntry);
    if FilledOf(outcomes) <= 0 then sent
    else
      sent.(debited := r.debited + CostOf(outcomes), shares := FilledOf(outcomes),
            cost := CostOf(outcomes) - FeesOf(outcomes), token := token, effective := effective, entered := true,
            entryShares := FilledOf(outcomes), fees := r.fees + FeesOf(outcomes), reason := Settlement,
            block := (|r.orders|, |orders|))
  }

  lemma EnteredHolds(r: Run, outcomes: seq<Outcome>, token: Token, counted: bool, nextEntry: int, effective: int)
    requires !r.entered
    ensures var after := AfterEntry(r, outcomes, token, counted, nextEntry, effective);
      after.entered ==> after.shares > 0
  {
  }

  lemma {:induction false} EntrySums(orders: seq<SimulatedOrder>, token: Token, outcomes: seq<Outcome>)
    ensures var all := orders + OrdersFrom(token, outcomes);
      && BuyCost(all) == BuyCost(orders) + CostOf(outcomes)
      && BoughtShares(all) == BoughtShares(orders) + FilledOf(outcomes)
      && SellProceeds(all) == SellProceeds(orders) && SoldShares(all) == SoldShares(orders)
      && EntryNotional(all) == EntryNotional(orders) + CostOf(outcomes) - FeesOf(outcomes)
      && ExitNotional(all) == ExitNotional(orders) && FeesPaid(all) == FeesPaid(orders) + FeesOf(outcomes)
      && forall k: Kind :: !k.Entry? ==> CountOf(all, k) == CountOf(orders, k)
  {
    if outcomes == [] {
      assert orders + OrdersFrom(token, outcomes) == orders;
    } else {
      var init, last := outcomes[..|outcomes| - 1], outcomes[|outcomes| - 1];
      EntrySums(orders, token, init);
      OneMoreOrder(orders + OrdersFrom(token, init), OrderFrom(Entry, token, last));
      assert orders + OrdersFrom(token, outcomes) == (orders + OrdersFrom(token, init)) + [OrderFrom(Entry, token, last)];
    }
  }

  lemma {:induction false} NothingFilled(fee: FeeConfig, outcomes: seq<Outcome>)
    requires fee.Valid() && forall o <- outcomes :: Coherent(fee, o)
    ensures FilledOf(outcomes) >= 0 && CostOf(outcomes) >= 0
    ensures FilledOf(outcomes) == 0 ==> CostOf(outcomes) == 0 && FeesOf(outcomes) == 0 && forall o <- outcomes :: o.filled == 0
  {
    hide TallyOf, AllPriced;
    if outcomes != [] {
      assert Coherent(fee, outcomes[|outcomes| - 1]);
      NothingFilled(fee, outcomes[..|outcomes| - 1]);
    }
  }

  /** Cash seen by an entry: the external source (or the configured budget), less what this run spent. */
  function RunCash(p: Params, cash: CashSource, debited: int): CashSource
  {
    var fallback := if p.orderNotional.Some? then p.orderNotional.value else 0x7FFF_FFFF_FFFF_FFFF;
    Some((t: int) requires cash.Some? ==> cash.value.requires(t) =>
           Max(0, (if cash.Some? then Max(0, cash.value(t)) else fallback) - debited))
  }

  /** The orders of one parent, sent before anything was bought. */
  ghost predicate EntryOf(fee: FeeConfig, tape: EpisodeTape, p: Params, cash: CashSource, outcomes: seq<Outcome>,
                          time: int, effective: int)
    requires fee.Valid()
  {
    && Children(fee, outcomes, time, effective, tape.end, RunCash(p, cash, 0))
    && (cash.Some? ==> forall t :: time <= t ==> cash.value.requires(t))
  }

  lemma EntryOrdersOk(fee: FeeConfig, tape: EpisodeTape, p: Params, cash: CashSource, r: Run, outcomes: seq<Outcome>, token: Token,
                      time: int, effective: int)
    requires fee.Valid() && EntryOf(fee, tape, p, cash, outcomes, time, effective) && tape.start <= time
    ensures forall o <- outcomes :: Coherent(fee, o)
    ensures forall o <- OrdersFrom(token, outcomes) :: OrderOk(o, tape.start, tape.end) && o.kind.Entry?
    ensures forall o <- OrdersFrom(token, outcomes) :: o.filled > 0 ==> o.arrival <= effective
  {
    hide TallyOf, AllPriced, CostOf;
    forall i | 0 <= i < |outcomes|
      ensures Coherent(fee, outcomes[i])
      ensures var o := OrderFrom(Entry, token, outcomes[i]);
        OrderOk(o, tape.start, tape.end) && (o.filled > 0 ==> o.arrival <= effective)
    {
      assert ChildAt(fee, outcomes, i, time, effective, tape.end, RunCash(p, cash, 0));
    }
  }

  /** The fills of a parent through child `k` fit the cash at its arrival. */
  lemma ChildAffordable(fee: FeeConfig, tape: EpisodeTape, p: Params, cash: CashSource, outcomes: seq<Outcome>, time: int,
                        effective: int, k: nat)
    requires fee.Valid() && EntryOf(fee, tape, p, cash, outcomes, time, effective) && cash.Some?
    requires k < |outcomes| && outcomes[k].filled > 0
    ensures var at := outcomes[k].arrival;
      cash.value.requires(at) && CostOf(outcomes[..k + 1]) <= Max(0, cash.value(at))
  {
    hide Coherent, CostOf;
    assert ChildAt(fee, outcomes, k, time, effective, tape.end, RunCash(p, cash, 0));
  }

  lemma EntryAffordable(fee: FeeConfig, tape: EpisodeTape, p: Params, cash: CashSource, orders: seq<SimulatedOrder>,
                        outcomes: seq<Outcome>, token: Token, time: int, effective: int)
    requires fee.Valid() && EntryOf(fee, tape, p, cash, outcomes, time, effective)
    requires Affordable(orders, cash) && BuyCost(orders) == 0
    ensures Affordable(orders + OrdersFrom(token, outcomes), cash)
  {
    hide EntryOf, BuyCost, CostOf;
    var all := orders + OrdersFrom(token, outcomes);
    if cash.Some? {
      forall i | 0 <= i < |all| && FilledBuy(all[i])
        ensures cash.value.requires(all[i].arrival) && BuyCost(all[..i + 1]) <= Max(0, cash.value(all[i].arrival))
      {
        if i < |orders| {
          assert all[..i + 1] == orders[..i + 1];
        } else {
          var k := i - |orders|;
          ChildAffordable(fee, tape, p, cash, outcomes, time, effective, k);
          assert all[..i + 1] == orders + OrdersFrom(token, outcomes[..k + 1]);
          EntrySums(orders, token, outcomes[..k + 1]);
        }
      }
    }
  }

  lemma {:induction false} ChildrenArriveInOrder(fee: FeeConfig, outcomes: seq<Outcome>, decision: int, deadline: int, end: int,
                                                 cash: CashSource, i: nat, j: nat)
    requires fee.Valid() && Children(fee, outcomes, decision, deadline, end, cash) && i < j < |outcomes|
    ensures outcomes[i].arrival <= outcomes[j].arrival
    decreases j
  {
    hide Coherent, CostOf;
    assert ChildAt(fee, outcomes, j, decision, deadline, end, cash);
    if i < j - 1 { ChildrenArriveInOrder(fee, outcomes, decision, deadline, end, cash, i, j - 1); }
  }

  lemma EntryKept(fee: FeeConfig, p: Params, tape: EpisodeTape, cash: CashSource, r: Run, outcomes: seq<Outcome>,
                  token: Token, counted: bool, nextEntry: int, time: int, effective: int)
    requires fee.Valid() && Kept(p, tape, cash, r) && !r.entered && tape.start <= time <= effective
    requires EntryOf(fee, tape, p, cash, outcomes, time, effective) && r.nextEntry <= nextEntry
    requires p.entry.Immediate? ==> |outcomes| == 1
    ensures Kept(p, tape, cash, AfterEntry(r, outcomes, token, counted, nextEntry, effective))
  {
    hide BuyCost, SellProceeds, SoldShares, BoughtShares, CountOf, EntryNotional, ExitNotional, FeesPaid, Affordable,
      Coherent, Children, CostOf, FilledOf, FeesOf,
      EntryOf, RunCash, BuysInOrder, OneParent;
    EntryOneParent(fee, p, tape, cash, r, outcomes, token, counted, nextEntry, time, effective);
    EntryOrdersOk(fee, tape, p, cash, r, outcomes, token, time, effective);
    EntryAffordable(fee, tape, p, cash, r.orders, outcomes, token, time, effective);
    EntrySums(r.orders, token, outcomes);
    NothingFilled(fee, outcomes);
    NoFillsYet(p, r);
    EntryInOrder(fee, p, tape, cash, r, outcomes, token, time, effective);
  }

  lemma EntryOneParent(fee: FeeConfig, p: Params, tape: EpisodeTape, cash: CashSource, r: Run, outcomes: seq<Outcome>,
                       token: Token, counted: bool, nextEntry: int, time: int, effective: int)
    requires fee.Valid() && OneParent(p, r) && !r.entered && tape.start <= time <= effective
    requires EntryOf(fee, tape, p, cash, outcomes, time, effective)
    requires p.entry.Immediate? ==> |outcomes| == 1
    ensures OneParent(p, AfterEntry(r, outcomes, token, counted, nextEntry, effective))
  {
    hide Coherent, Children, CostOf, FilledOf, FeesOf, EntryOf, RunCash, Chained;
    EntryOrdersOk(fee, tape, p, cash, r, outcomes, token, time, effective);
    NothingFilled(fee, outcomes);
    NoFillsYet(p, r);
    EntryChained(fee, p, tape, cash, r.orders, outcomes, token, time, effective);
    NothingChained(r.orders + OrdersFrom(token, outcomes));
  }

  lemma NothingChained(orders: seq<SimulatedOrder>)
    ensures Chained(orders, 0, 0)
  {
  }

  lemma EntryChained(fee: FeeConfig, p: Params, tape: EpisodeTape, cash: CashSource, orders: seq<SimulatedOrder>,
                     outcomes: seq<Outcome>, token: Token, time: int, effective: int)
    requires fee.Valid() && EntryOf(fee, tape, p, cash, outcomes, time, effective)
    ensures var all := orders + OrdersFrom(token, outcomes); Chained(all, |orders|, |all|)
  {
    hide Coherent, CostOf;
    var all := orders + OrdersFrom(token, outcomes);
    forall i | |orders| < i < |all| ensures all[i - 1].arrival <= all[i].decision {
      assert ChildAt(fee, outcomes, i - |orders|, time, effective, tape.end, RunCash(p, cash, 0));
    }
  }

  lemma EntryInOrder(fee: FeeConfig, p: Params, tape: EpisodeTape, cash: CashSource, r: Run, outcomes: seq<Outcome>, token: Token,
                     time: int, effective: int)
    requires fee.Valid() && OneParent(p, r) && !r.entered && EntryOf(fee, tape, p, cash, outcomes, time, effective)
    ensures BuysInOrder(r.orders + OrdersFrom(token, outcomes))
  {
    hide EntryOf;
    var orders := r.orders + OrdersFrom(token, outcomes);
    NoFillsYet(p, r);
    forall i, j | 0 <= i < j < |orders| && FilledBuy(orders[i]) && FilledBuy(orders[j])
      ensures orders[i].arrival <= orders[j].arrival
    {
      assert |r.orders| <= i;
      ArriveInOrder(fee, tape, p, cash, outcomes, time, effective, i - |r.orders|, j - |r.orders|);
    }
  }

  lemma ArriveInOrder(fee: FeeConfig, tape: EpisodeTape, p: Params, cash: CashSource, outcomes: seq<Outcome>, time: int,
                      effective: int, i: nat, j: nat)
    requires fee.Valid() && EntryOf(fee, tape, p, cash, outcomes, time, effective) && i < j < |outcomes|
    ensures outcomes[i].arrival <= outcomes[j].arrival
  {
    ChildrenArriveInOrder(fee, outcomes, time, effective, tape.end, RunCash(p, cash, 0), i, j);
  }

  /** Before the parent fills, nothing has. */
  lemma NoFillsYet(p: Params, r: Run)
    requires OneParent(p, r) && !r.entered
    ensures forall i :: 0 <= i < |r.orders| ==> !FilledBuy(r.orders[i]) && r.orders[i].kind.Entry?
  {
  }

  // ---- the main loop ------------------------------------------------------------------------

  datatype EpisodeResult = EpisodeResult(
    orders: seq<SimulatedOrder>, entered: bool, reason: ExitReason,
    entryShares: int, entryNotional: int, exitShares: int, exitNotional: int,
    settledShares: int, payout: int, fees: int, gross: int, net: int)

  /** Shares still held at the end are carried into settlement; a stop that could not be filled is named. */
  function Finish(r: Run, winner: Option<Token>): EpisodeResult
  {
    if !r.entered then EpisodeResult(r.orders, false, NoEntry, 0, 0, 0, 0, 0, 0, 0, 0, 0)
    else
      var payout := if r.shares > 0 && winner == Some(r.token) then r.shares else 0;
      var reason := if r.shares > 0 && r.reason.StoppedOut? then StopUnfilledHeld else r.reason;
      var gross := r.exitNotional + payout - r.cost;
      EpisodeResult(r.orders, true, reason, r.entryShares, r.cost, r.exitShares, r.exitNotional,
                    r.shares, payout, r.fees, gross, gross - r.fees)
  }

  /** A run either plays to the end, or fails because a sequential parent was asked for no shares. */
  datatype Played = Played(result: EpisodeResult) | PlanRejected

  // ---- one row at a time --------------------------------------------------------------------

  /** The exit attempt of one row, if its prices and the clock call for one. */
  ghost function ExitStep(v: Venue, p: Params, r: Run, s: Impact, bid: Option<int>, token: Token, time: int): (Run, Impact)
    requires v.realism.Valid()
  {
    var choice := ChooseExit(p, v.tape, r, bid, time);
    if choice.None? then (r, s)
    else
      var (kind, target) := choice.value;
      var (outcome, after) := SentBy(v, s, Order(Sell, token, time, target, None, false, None, None), None);
      (AfterExit(p, r, OrderFrom(kind, token, outcome), time), after)
  }

  /** Budget of an entry decided at `time`, and whether cash limits it: a dollar order is limited to the
      cash there is, and keeps its full request while there is none. */
  ghost function SpendOf(p: Params, cash: CashSource, debited: int, time: int): (Option<int>, bool)
  {
    if p.orderNotional.None? || cash.None? || CashAt(RunCash(p, cash, debited), time).None? then (p.orderNotional, false)
    else
      var now, wanted := CashAt(RunCash(p, cash, debited), time).value, p.orderNotional.value;
      (if now > 0 then Some(Min(wanted, now)) else Some(wanted), now < wanted)
  }

  /** An immediate entry: one order. While cash is what stopped it, it does not count as an entry. */
  ghost function ImmediateStep(v: Venue, p: Params, r: Run, s: Impact, row: Row, cash: CashSource): (Run, Impact)
    requires v.realism.Valid() && row.asks != [] && (p.orderShares.Some? || p.orderNotional.Some?)
  {
    var (spend, limited) := SpendOf(p, cash, r.debited, row.time);
    var o := Order(Buy, row.token, row.time, EntrySize(p, row.asks[0].price), spend, !p.allowPartial, Some(p.limit), None);
    var (outcome, after) := SentBy(v, s, o, RunCash(p, cash, r.debited));
    var pending := outcome.rejected == Some(InsufficientAvailableCash) || (limited && outcome.filled <= 0);
    (AfterEntry(r, [outcome], row.token, !pending, if pending then r.nextEntry else row.time + p.cooldown, outcome.arrival),
     after)
  }

  function DeadlineOf(v: Venue, p: Params, time: int): int
  {
    Min(v.tape.start + p.entryTo, Min(v.tape.end - 1, time + p.horizon))
  }

  /** The parent a sequential entry hands to its child policy. */
  ghost function ParentOf(v: Venue, p: Params, r: Run, row: Row, cash: CashSource): Parent
    requires v.realism.Valid() && row.asks != [] && p.entry.Sequential? && (p.orderShares.Some? || p.orderNotional.Some?)
  {
    var (spend, _) := SpendOf(p, cash, r.debited, row.time);
    var ask := row.asks[0].price;
    var target := if p.orderShares.Some? then p.orderShares.value else MaxAffordable(v.realism.fee, spend.value, ask, None);
    Parent(row.token, row.time, DeadlineOf(v, p, row.time), target, ask, Some(p.limit), spend, p.entry.policy)
  }

  /** A sequential entry: a whole parent, replayed to its deadline; no run if it would ask for no shares. */
  ghost function SequentialStep(v: Venue, p: Params, r: Run, s: Impact, row: Row, cash: CashSource): Option<(Run, Impact)>
    requires v.realism.Valid() && p.Valid() && p.entry.Sequential? && row.asks != [] && row.asks[0].price > 0
    requires row.time < DeadlineOf(v, p, row.time)
  {
    var parent, source := ParentOf(v, p, r, row, cash), RunCash(p, cash, r.debited);
    if parent.target <= 0 then None
    else
      var st := ParentAfter(v, parent, source, s, OffsetsOf(v, parent));
      var limited := SpendOf(p, cash, r.debited, row.time).1;
      var pending := (limited && FilledOf(st.outcomes) <= 0) || AllCashPending(st.outcomes);
      Some((AfterEntry(r, st.outcomes, row.token, !pending, parent.deadline + p.cooldown, parent.deadline), st.impact))
  }

  datatype Status = Going | Over | Rejected

  datatype EpisodeState = EpisodeState(run: Run, impact: Impact, status: Status)

  /** What one row does to a run: an exit attempt while holding, else an entry if the row triggers one. */
  ghost function RowStep(v: Venue, p: Params, cash: CashSource, e: EpisodeState, row: Row): EpisodeState
    requires v.realism.Valid() && p.Valid()
  {
    var r := e.run;
    if !e.status.Going? then e
    else if row.time > v.tape.end then e.(status := Over)
    else if r.shares > 0 && row.token == r.token && row.time >= r.effective then
      var bid: Option<int> := if row.bids == [] then None else Some(row.bids[0].price);
      var (after, impact) := ExitStep(v, p, r, e.impact, bid, row.token, row.time);
      EpisodeState(after, impact, if after.shares <= 0 then Over else Going)
    else if r.shares > 0 || !Triggers(p, r, row) || row.time > v.tape.start + p.entryTo then e
    else if p.entry.Immediate? then
      var (after, impact) := ImmediateStep(v, p, r, e.impact, row, cash);
      EpisodeState(after, impact, Going)
    else if DeadlineOf(v, p, row.time) <= row.time then e
    else
      match SequentialStep(v, p, r, e.impact, row, cash)
      case None => e.(status := Rejected)
      case Some((after, impact)) => EpisodeState(after, impact, Going)
  }

  ghost function EpisodeAfter(v: Venue, p: Params, cash: CashSource, start: Impact, rows: seq<Row>): EpisodeState
    requires v.realism.Valid() && p.Valid()
  {
    if rows == [] then EpisodeState(StartOf(p, v.tape), start, Going)
    else RowStep(v, p, cash, EpisodeAfter(v, p, cash, start, rows[..|rows| - 1]), rows[|rows| - 1])
  }

  lemma RowOneMore(v: Venue, p: Params, cash: CashSource, start: Impact, rows: seq<Row>, i: nat)
    requires v.realism.Valid() && p.Valid() && i < |rows|
    ensures EpisodeAfter(v, p, cash, start, rows[..i + 1])
         == RowStep(v, p, cash, EpisodeAfter(v, p, cash, start, rows[..i]), rows[i])
  {
    hide RowStep;
    assert rows[..i + 1][..i] == rows[..i];
  }

  /** A run that is over, or failed, stays as it is. */
  lemma {:induction false} EpisodeStays(v: Venue, p: Params, cash: CashSource, start: Impact, rows: seq<Row>, i: nat)
    requires v.realism.Valid() && p.Valid() && i <= |rows|
    requires i < |rows| ==> !EpisodeAfter(v, p, cash, start, rows[..i]).status.Going?
    ensures EpisodeAfter(v, p, cash, start, rows) == EpisodeAfter(v, p, cash, start, rows[..i])
    decreases |rows|
  {
    hide ExitStep, ImmediateStep, SequentialStep;
    if i == |rows| {
      assert rows[..i] == rows;
    } else {
      var init := rows[..|rows| - 1];
      assert init[..i] == rows[..i];
      EpisodeStays(v, p, cash, start, init, i);
    }
  }

  /** Attempts the exit decided on one row, if any. */
  method MaybeExit(replay: EpisodeReplay, p: Params, r: Run, bid: Option<int>, token: Token, time: int,
                   ghost cash: CashSource)
    returns (after: Run)
    requires replay.realism.Valid() && p.Valid() && Kept(p, replay.tape, cash, r)
    requires r.entered && r.shares > 0 && r.effective <= time && token == r.token
    modifies replay
    ensures (after, replay.State()) == ExitStep(replay.At(), p, r, old(replay.State()), bid, token, time)
    ensures Kept(p, replay.tape, cash, after) && after.entered
  {
    hide Kept, Sent, Coherent, BuyCost;
    var choice := ChooseExit(p, replay.tape, r, bid, time);
    if choice.None? {
      return r;
    }
    ChosenPermitted(p, replay.tape, r, bid, time);
    var (kind, target) := choice.value;
    var o := Order(Sell, token, time, target, None, false, None, None);
    ghost var arrival := time + replay.latency(replay.draws);
    SentBounded(replay.tape, replay.realism, replay.record, replay.cursor, o, arrival, None);
    var outcome := replay.Send(o, None);
    StartsInMarket(p, replay.tape, cash, r);
    OutcomeOrderOk(replay.realism.fee, kind, token, outcome, replay.tape);
    ExitKept(p, replay.tape, cash, r, OrderFrom(kind, token, outcome), time);
    after := AfterExit(p, r, OrderFrom(kind, token, outcome), time);
  }

  lemma StartsInMarket(p: Params, tape: EpisodeTape, cash: CashSource, r: Run)
    requires Kept(p, tape, cash, r)
    ensures r.entered ==> tape.start <= r.effective
    ensures tape.start + p.entryFrom <= r.nextEntry && 0 <= r.entries
    ensures !r.entered ==> r.debited == 0 && r.shares == 0
    ensures r.entered <==> r.entryShares > 0
  {
  }

  lemma {:induction false} NoneBought(orders: seq<SimulatedOrder>)
    requires forall o <- orders :: o.kind.Entry?
    ensures SoldShares(orders) == 0
  {
    if orders != [] { NoneBought(orders[..|orders| - 1]); }
  }

  lemma OutcomeOrderOk(fee: FeeConfig, kind: Kind, token: Token, o: Outcome, tape: EpisodeTape)
    requires fee.Valid() && Coherent(fee, o) && tape.start <= o.decision <= o.arrival
    requires o.filled > 0 ==> o.arrival < tape.end
    ensures OrderOk(OrderFrom(kind, token, o), tape.start, tape.end)
  {
  }

  function EntrySize(p: Params, ask: int): int
    requires p.orderShares.Some? || p.orderNotional.Some?
  {
    if p.orderShares.Some? then p.orderShares.value else p.orderNotional.value * SCALE / Max(ask, 1)
  }

  /** One immediate entry attempt. */
  method EnterImmediate(replay: EpisodeReplay, p: Params, r: Run, row: Row, cash: CashSource)
    returns (after: Run)
    requires replay.realism.Valid() && p.Valid() && Kept(p, replay.tape, cash, r) && !r.entered
    requires replay.tape.start <= row.time && r.nextEntry <= row.time && row.asks != []
    requires cash.Some? ==> forall t :: row.time <= t ==> cash.value.requires(t)
    modifies replay
    ensures (after, replay.State()) == ImmediateStep(replay.At(), p, r, old(replay.State()), row, cash)
    ensures Kept(p, replay.tape, cash, after)
    ensures after.entered ==> after.shares > 0
  {
    hide Kept, Sent, Coherent, BuyCost, Children, RunCash, SpendOf, AfterEntry, EntrySize;
    StartsInMarket(p, replay.tape, cash, r);
    var tape, source, time := replay.tape, RunCash(p, cash, r.debited), row.time;
    var spend, limited := EntrySpend(p, cash, r.debited, time);
    var o := Order(Buy, row.token, time, EntrySize(p, row.asks[0].price), spend, !p.allowPartial, Some(p.limit), None);
    ghost var arrival := time + replay.latency(replay.draws);
    RunCashDomain(p, cash, r.debited, time);
    SentBounded(tape, replay.realism, replay.record, replay.cursor, o, arrival, CashAt(source, arrival));
    var outcome := replay.Send(o, source);
    var pending := outcome.rejected == Some(InsufficientAvailableCash) || (limited && outcome.filled <= 0);
    var nextEntry := if pending then r.nextEntry else time + p.cooldown;
    SingleChild(replay.realism.fee, outcome, time, tape, source);
    assert EntryOf(replay.realism.fee, tape, p, cash, [outcome], time, outcome.arrival);
    EntryKept(replay.realism.fee, p, tape, cash, r, [outcome], row.token, !pending, nextEntry, time, outcome.arrival);
    EnteredHolds(r, [outcome], row.token, !pending, nextEntry, outcome.arrival);
    after := AfterEntry(r, [outcome], row.token, !pending, nextEntry, outcome.arrival);
  }

  lemma RunCashDomain(p: Params, cash: CashSource, debited: int, start: int)
    requires cash.Some? ==> forall t :: start <= t ==> cash.value.requires(t)
    ensures var source := RunCash(p, cash, debited);
      source.Some? && forall t :: start <= t ==> source.value.requires(t)
  {
  }

  lemma SingleChild(fee: FeeConfig, o: Outcome, time: int, tape: EpisodeTape, source: CashSource)
    requires fee.Valid() && Coherent(fee, o) && o.decision == time <= o.arrival
    requires o.filled > 0 ==>
      && o.arrival < tape.end && source.Some? && source.value.requires(o.arrival)
      && o.notional + o.fees <= Max(0, source.value(o.arrival))
    ensures Children(fee, [o], time, o.arrival, tape.end, source)
  {
    hide Coherent;
    assert CostOf([o]) == o.notional + o.fees by { assert [o] == [] + [o]; CostAppend([], o); }
    assert [o][..1] == [o];
  }

  function AllCashPending(outcomes: seq<Outcome>): bool
  {
    outcomes != [] && forall o <- outcomes :: o.rejected == Some(InsufficientAvailableCash)
  }

  /** Shares a sequential parent asks for. */
  method ParentTarget(fee: FeeConfig, p: Params, spend: Option<int>, ask: int) returns (target: int)
    requires fee.Valid() && p.Valid() && (p.orderShares.None? ==> spend.Some?)
    ensures target == if p.orderShares.Some? then p.orderShares.value else MaxAffordable(fee, spend.value, ask, None)
  {
    if p.orderShares.Some? {
      return p.orderShares.value;
    }
    target := MaxAffordableShares(fee, spend.value, ask, None);
  }

  /** One sequential entry attempt with a deadline after its decision. The run fails exactly when the
      parent would ask for no shares. */
  method EnterSequential(replay: EpisodeReplay, p: Params, r: Run, row: Row, cash: CashSource)
    returns (after: Option<Run>)
    requires replay.realism.Valid() && WellFormed(replay.tape) && p.Valid() && p.entry.Sequential?
    requires Kept(p, replay.tape, cash, r) && !r.entered
    requires replay.tape.start <= row.time && r.nextEntry <= row.time < DeadlineOf(replay.At(), p, row.time)
    requires row.asks != [] && row.asks[0].price > 0
    requires cash.Some? ==> forall t :: row.time <= t ==> cash.value.requires(t)
    modifies replay
    ensures after.None? <==> SequentialStep(replay.At(), p, r, old(replay.State()), row, cash).None?
    ensures after.None? ==> p.orderShares.None? && replay.State() == old(replay.State())
    ensures after.Some? ==>
      SequentialStep(replay.At(), p, r, old(replay.State()), row, cash) == Some((after.value, replay.State()))
    ensures after.Some? ==> Kept(p, replay.tape, cash, after.value)
    ensures after.Some? && after.value.entered ==> after.value.shares > 0
  {
    hide Kept, Coherent, BuyCost, Children, RunCash, MaxAffordable, ParentAfter, SpendOf, OffsetsOf, MarkOf, Evaluate,
      Notional, AfterEntry, FilledOf, CostOf, AllCashPending, WellFormed;
    StartsInMarket(p, replay.tape, cash, r);
    var tape, source, time := replay.tape, RunCash(p, cash, r.debited), row.time;
    var deadline := DeadlineOf(replay.At(), p, time);
    RunCashDomain(p, cash, r.debited, time);
    var spend, limited := EntrySpend(p, cash, r.debited, time);
    var target := ParentTarget(replay.realism.fee, p, spend, row.asks[0].price);
    if target <= 0 {
      return None;
    }
    var parent := Parent(row.token, time, deadline, target, row.asks[0].price, Some(p.limit), spend, p.entry.policy);
    var outcomes, objective := SequentialEntry(replay, parent, source);
    var pending := (limited && FilledOf(outcomes) <= 0) || AllCashPending(outcomes);
    assert EntryOf(replay.realism.fee, tape, p, cash, outcomes, time, deadline);
    EntryKept(replay.realism.fee, p, tape, cash, r, outcomes, row.token, !pending, deadline + p.cooldown, time, deadline);
    EnteredHolds(r, outcomes, row.token, !pending, deadline + p.cooldown, deadline);
    after := Some(AfterEntry(r, outcomes, row.token, !pending, deadline + p.cooldown, deadline));
  }

  /** A budget buys no share exactly when a single unit costs more than it. */
  lemma NothingAffordableIff(fee: FeeConfig, spend: int, ask: int)
    requires fee.Valid() && ask > 0 && spend > 0
    ensures MaxAffordable(fee, spend, ask, None) == 0 <==> Cost(fee, 1, ask) > spend
  {
    if MaxAffordable(fee, spend, ask, None) >= 1 {
      CostMonotone(fee, 1, MaxAffordable(fee, spend, ask, None), ask);
    }
  }

  /** A sequential entry fails exactly when the run is sized in dollars and its budget does not pay for a
      single share unit at the displayed ask. */
  lemma SequentialFailsIff(v: Venue, p: Params, r: Run, s: Impact, row: Row, cash: CashSource)
    requires v.realism.Valid() && p.Valid() && p.entry.Sequential? && row.asks != [] && row.asks[0].price > 0
    requires row.time < DeadlineOf(v, p, row.time)
    ensures SequentialStep(v, p, r, s, row, cash).None? <==>
      p.orderShares.None? && Cost(v.realism.fee, 1, row.asks[0].price) > SpendOf(p, cash, r.debited, row.time).0.value
  {
    hide MaxAffordable, ParentAfter, AfterEntry, Cost;
    var spend := SpendOf(p, cash, r.debited, row.time).0;
    if p.orderShares.None? { NothingAffordableIff(v.realism.fee, spend.value, row.asks[0].price); }
  }

  /** Whether a row may trigger an entry. */
  predicate Triggers(p: Params, r: Run, row: Row)
  {
    && r.entries < p.maxEntries
    && r.nextEntry <= row.time && row.token in p.allowed
    && row.asks != [] && p.trigger <= row.asks[0].price <= p.limit
  }

  /** Whether a row may trigger the first entry of a run. */
  predicate Opens(p: Params, tape: EpisodeTape, row: Row)
  {
    row.time <= tape.end && Triggers(p, StartOf(p, tape), row) && row.time <= tape.start + p.entryTo
  }

  /** The cash source answers whenever a run may ask it: no earlier than a row that may trigger an entry. */
  ghost predicate Answers(p: Params, tape: EpisodeTape, cash: CashSource)
  {
    cash.Some? ==> forall r: Row, t: int :: r in tape.rows && Opens(p, tape, r) && r.time <= t ==> cash.value.requires(t)
  }

  /** Until the first such row nothing happens, and nothing is asked. */
  lemma {:induction false} QuietUntilOpening(v: Venue, p: Params, cash: CashSource, start: Impact, rows: seq<Row>)
    requires v.realism.Valid() && p.Valid() && forall r <- rows :: !Opens(p, v.tape, r)
    ensures EpisodeAfter(v, p, cash, start, rows).run == StartOf(p, v.tape)
    ensures EpisodeAfter(v, p, cash, start, rows).impact == start
  {
    hide ExitStep, ImmediateStep, SequentialStep;
    if rows != [] {
      assert rows[|rows| - 1] in rows;
      QuietUntilOpening(v, p, cash, start, rows[..|rows| - 1]);
    }
  }

  /** A row that triggers any entry may trigger the first. */
  lemma EntersOpen(p: Params, tape: EpisodeTape, r: Run, row: Row)
    requires Triggers(p, r, row) && r.entries >= 0 && tape.start + p.entryFrom <= r.nextEntry
    requires row.time <= tape.end && row.time <= tape.start + p.entryTo
    ensures Opens(p, tape, row)
  {
  }

  /** Replays one episode. Whatever the tape, the latencies and the cash source, the loop keeps its
      invariant; `r` is the final state of the loop. */
  method RunEpisode(replay: EpisodeReplay, p: Params, winner: Option<Token>, cash: CashSource)
    returns (played: Played, ghost r: Run)
    requires replay.realism.Valid() && WellFormed(replay.tape) && p.Valid() && Answers(p, replay.tape, cash)
    modifies replay
    ensures var e := EpisodeAfter(replay.At(), p, cash, old(replay.State()), replay.tape.rows);
      && replay.State() == e.impact && r == e.run
      && played == if e.status.Rejected? then PlanRejected else Played(Finish(e.run, winner))
    ensures Kept(p, replay.tape, cash, r)
    ensures played.PlanRejected? ==> p.entry.Sequential? && p.orderNotional.Some?
    ensures played.Played? ==> SettledFor(played.result, winner)
  {
    hide Kept, BuyCost, WellFormed, EpisodeAfter, ExitStep, ImmediateStep, SequentialStep, Finish, SettledFor;
    var tape := replay.tape;
    ghost var v, was := replay.At(), replay.State();
    var state := StartOf(p, tape);
    StartKept(p, tape, cash);
    NoRows(v, p, cash, was, tape.rows);
    var entryTo := tape.start + p.entryTo;
    var index := 0;
    while index < |tape.rows|
      invariant 0 <= index <= |tape.rows|
      invariant Kept(p, tape, cash, state) && (state.entered ==> state.shares > 0)
      invariant EpisodeAfter(v, p, cash, was, tape.rows[..index]) == EpisodeState(state, replay.State(), Going)
    {
      var row := tape.rows[index];
      RowOneMore(v, p, cash, was, tape.rows, index);
      index := index + 1;
      if row.time > tape.end {
        break;
      }
      StartsInMarket(p, tape, cash, state);
      if state.shares > 0 && row.token == state.token && row.time >= state.effective {
        var bid: Option<int> := if row.bids == [] then None else Some(row.bids[0].price);
        state := MaybeExit(replay, p, state, bid, row.token, row.time, cash);
        if state.shares <= 0 {
          break;
        }
        continue;
      }
      if state.shares > 0 || !Triggers(p, state, row) || row.time > entryTo {
        continue;
      }
      EntersOpen(p, tape, state, row);
      if p.entry.Immediate? {
        state := EnterImmediate(replay, p, state, row, cash);
      } else {
        if DeadlineOf(replay.At(), p, row.time) <= row.time {
          continue;
        }
        var after := EnterSequential(replay, p, state, row, cash);
        if after.None? {
          EpisodeStays(v, p, cash, was, tape.rows, index);
          return PlanRejected, state;
        }
        state := after.value;
      }
    }
    EpisodeStays(v, p, cash, was, tape.rows, index);
    r := state;
    SettlesHeld(p, tape, cash, r, winner);
    played := Played(Finish(state, winner));
  }

  lemma NoRows(v: Venue, p: Params, cash: CashSource, start: Impact, rows: seq<Row>)
    requires v.realism.Valid() && p.Valid()
    ensures EpisodeAfter(v, p, cash, start, rows[..0]) == EpisodeState(StartOf(p, v.tape), start, Going)
  {
  }

  method EntrySpend(p: Params, cash: CashSource, debited: int, time: int) returns (spend: Option<int>, limited: bool)
    requires p.Valid()
    requires cash.Some? ==> forall t :: time <= t ==> cash.value.requires(t)
    ensures (spend, limited) == SpendOf(p, cash, debited, time)
    ensures spend.None? <==> p.orderNotional.None?
    ensures spend.Some? ==> 0 < spend.value <= p.orderNotional.value
  {
    spend, limited := p.orderNotional, false;
    if spend.Some? && cash.Some? {
      RunCashDomain(p, cash, debited, time);
      var now := RunCash(p, cash, debited).value(time);
      limited := now < spend.value;
      if now > 0 {
        spend := Some(Min(spend.value, now));
      }
    }
  }

  /** A dollar entry is limited exactly when the cash left, after what the run spent, falls short of what it wants; then it
      asks for what is left, and for all it wants while nothing is. */
  lemma SpendIs(p: Params, cash: CashSource, debited: int, time: int)
    requires p.orderNotional.Some? && cash.Some? && cash.value.requires(time)
    ensures var wanted, left := p.orderNotional.value, Max(0, Max(0, cash.value(time)) - debited);
      SpendOf(p, cash, debited, time) == (Some(if 0 < left < wanted then left else wanted), left < wanted)
  {
    var left := Max(0, Max(0, cash.value(time)) - debited);
    var source := RunCash(p, cash, debited);
    assert source.value.requires(time) && source.value(time) == left;
  }

  lemma StartKept(p: Params, tape: EpisodeTape, cash: CashSource)
    ensures Kept(p, tape, cash, StartOf(p, tape))
  {
  }

  // ---- what an episode result means ---------------------------------------------------------

  /** Settlement pays one for every share of a token that won, and nothing for shares of a token that did not. */
  ghost predicate SettledFor(e: EpisodeResult, winner: Option<Token>)
  {
    && (forall o <- e.orders :: FilledBuy(o) ==>
          e.payout == (if winner == Some(o.token) then e.settledShares else 0))
    && ((forall o <- e.orders :: !FilledBuy(o)) ==> e.settledShares == 0 && e.payout == 0)
  }

  lemma {:induction false} SomeBuy(orders: seq<SimulatedOrder>)
    requires forall o <- orders :: !FilledBuy(o) && o.filled >= 0
    ensures BoughtShares(orders) == 0
  {
    if orders != [] { SomeBuy(orders[..|orders| - 1]); }
  }

  lemma SettlesHeld(p: Params, tape: EpisodeTape, cash: CashSource, r: Run, winner: Option<Token>)
    requires Kept(p, tape, cash, r)
    ensures SettledFor(Finish(r, winner), winner)
  {
    hide BuyCost, SellProceeds, SoldShares, BoughtShares, CountOf, Affordable, ExitsWait, BuysInOrder, Chained;
    if !r.entered {
      NoFillsYet(p, r);
    } else if forall o <- r.orders :: !FilledBuy(o) {
      SomeBuy(r.orders);
    }
  }

  /** Every share bought was sold or settled, the shares of a winning token at one each and those of any other at
      nothing, and the profit is exactly what the orders and the settlement moved. */
  lemma ResultBalances(p: Params, tape: EpisodeTape, cash: CashSource, r: Run, winner: Option<Token>)
    requires Kept(p, tape, cash, r)
    ensures var e := Finish(r, winner);
      && e.entryShares == e.exitShares + e.settledShares && e.settledShares >= 0
      && e.entryShares == BoughtShares(e.orders) && e.exitShares == SoldShares(e.orders)
      && 0 <= e.payout <= e.settledShares && SettledFor(e, winner)
      && e.net == SellProceeds(e.orders) + e.payout - BuyCost(e.orders)
      && e.entryNotional == EntryNotional(e.orders) && e.exitNotional == ExitNotional(e.orders) && e.fees == FeesPaid(e.orders)
      && e.gross == e.exitNotional + e.payout - e.entryNotional && e.net == e.gross - e.fees
  {
    hide BuyCost;
    SettlesHeld(p, tape, cash, r, winner);
    if !r.entered {
      NoneBought(r.orders);
      NoneReceived(r.orders);
    }
  }

  lemma {:induction false} NoneReceived(orders: seq<SimulatedOrder>)
    requires forall o <- orders :: o.kind.Entry?
    ensures SellProceeds(orders) == 0
  {
    if orders != [] { NoneReceived(orders[..|orders| - 1]); }
  }

  /** At most one stop per allowed retry plus the first, one take-profit and one flatten; no exit decided
      before an earlier fill or exit attempt arrived; no fill at or after the market's end; and one filled
      parent: a single block of entry orders that follow one another holds every filled buy, one order long
      for an immediate entry, and after it there are only exits. */
  lemma ResultMachine(p: Params, tape: EpisodeTape, cash: CashSource, r: Run, winner: Option<Token>)
    requires Kept(p, tape, cash, r)
    ensures var e := Finish(r, winner);
      && CountOf(e.orders, StopLoss) <= p.retryLimit + 1
      && CountOf(e.orders, TakeProfit) <= 1 && CountOf(e.orders, Flatten) <= 1
      && ExitsWait(e.orders)
      && (forall o <- e.orders :: o.filled > 0 ==> tape.start <= o.decision <= o.arrival < tape.end)
      && exists lo: nat, hi: nat :: lo <= hi <= |e.orders| && FilledParent(p, e.orders, lo, hi)
  {
    hide BuyCost, CountOf;
    if r.entered {
      assert FilledParent(p, r.orders, r.block.0, r.block.1);
    } else {
      NoFillsYet(p, r);
      assert FilledParent(p, r.orders, |r.orders|, |r.orders|);
    }
  }

  /** All filled buys lie in this block, and the block is one parent's. */
  ghost predicate FilledParent(p: Params, orders: seq<SimulatedOrder>, lo: nat, hi: nat)
    requires lo <= hi <= |orders|
  {
    && (forall i :: 0 <= i < |orders| && FilledBuy(orders[i]) ==> lo <= i < hi)
    && (forall i :: 0 <= i < hi ==> orders[i].kind.Entry?)
    && (forall i :: hi <= i < |orders| ==> !orders[i].kind.Entry?)
    && Chained(orders, lo, hi)
    && (p.entry.Immediate? ==> hi <= lo + 1)
  }
}
