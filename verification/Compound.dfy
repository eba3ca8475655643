/** Compounded runs: each episode trades from the wallet, and its cashflows are applied back to it. */
module Compound {
  import opened FixedPoint
  import opened Market
  import opened TakerWalk
  import opened Reconstruction
  import opened Tapes
  import opened Sending
  import opened Policies
  import opened Sessions
  import opened ParentDriver
  import opened Episodes
  import opened EpisodeShape
  import W = Wallets

  // ---- the order in which cashflows are applied ---------------------------------------------

  function FilledOnly(orders: seq<SimulatedOrder>): seq<SimulatedOrder>
  {
    if orders == [] then []
    else
      var last := orders[|orders| - 1];
      FilledOnly(orders[..|orders| - 1]) + if last.filled != 0 then [last] else []
  }

  /** Earlier arrivals first; at one arrival a sale precedes a purchase. */
  predicate NotAfter(a: SimulatedOrder, b: SimulatedOrder)
  {
    a.arrival < b.arrival || (a.arrival == b.arrival && (!a.kind.Entry? || b.kind.Entry?))
  }

  /** Stable insertion of one order at the end of an ordered list. */
  function Inserted(orders: seq<SimulatedOrder>, o: SimulatedOrder): seq<SimulatedOrder>
  {
    if orders == [] || NotAfter(orders[|orders| - 1], o) then orders + [o]
    else Inserted(orders[..|orders| - 1], o) + [orders[|orders| - 1]]
  }

  function ByArrival(orders: seq<SimulatedOrder>): seq<SimulatedOrder>
  {
    if orders == [] then [] else Inserted(ByArrival(orders[..|orders| - 1]), orders[|orders| - 1])
  }

  function Buys(orders: seq<SimulatedOrder>): seq<SimulatedOrder>
  {
    if orders == [] then []
    else
      var last := orders[|orders| - 1];
      Buys(orders[..|orders| - 1]) + if last.kind.Entry? then [last] else []
  }

  function Sells(orders: seq<SimulatedOrder>): seq<SimulatedOrder>
  {
    if orders == [] then []
    else
      var last := orders[|orders| - 1];
      Sells(orders[..|orders| - 1]) + if last.kind.Entry? then [] else [last]
  }

  // ---- applying one result ------------------------------------------------------------------

  datatype Applied = Fine | SellFeesExceedProceeds | Ledger(problem: W.Verdict) | DoesNotReconcile

  function CreditSells(l: W.Ledger, sells: seq<SimulatedOrder>): W.Ledger
  {
    if sells == [] then l
    else
      var o := sells[|sells| - 1];
      W.Scheduled(CreditSells(l, sells[..|sells| - 1]), o.arrival, o.notional - o.fees)
  }

  /** Debits in order; the first refused debit ends the run. */
  function DebitBuys(l: W.Ledger, buys: seq<SimulatedOrder>): (W.Ledger, W.Verdict)
  {
    if buys == [] then (l, W.Fine)
    else
      var (before, v) := DebitBuys(l, buys[..|buys| - 1]);
      var o := buys[|buys| - 1];
      if v != W.Fine then (before, v) else W.Debited(before, o.arrival, o.notional + o.fees)
  }

  predicate SellShort(o: SimulatedOrder) { o.notional - o.fees < 0 }

  /** When the payout of shares held through settlement becomes spendable. */
  function PayoutTime(end: int, resolution: Option<int>): int
  {
    Max(end, if resolution.Some? then resolution.value else end + 60_000_000_000)
  }

  function WithCredits(l: W.Ledger, end: int, resolution: Option<int>, e: EpisodeResult): W.Ledger
  {
    var credited := CreditSells(l, Sells(ByArrival(FilledOnly(e.orders))));
    if e.settledShares != 0 then W.Scheduled(credited, PayoutTime(end, resolution), e.payout) else credited
  }

  /** Schedules the proceeds of every sale; a sale whose fee exceeds its notional is an error. */
  method ScheduleSales(wallet: W.ReplayWallet, sells: seq<SimulatedOrder>) returns (ok: bool)
    modifies wallet
    ensures ok <==> forall o <- sells :: !SellShort(o)
    ensures ok ==> wallet.State() == CreditSells(old(wallet.State()), sells)
  {
    for i := 0 to |sells|
      invariant wallet.State() == CreditSells(old(wallet.State()), sells[..i])
      invariant forall j :: 0 <= j < i ==> !SellShort(sells[j])
    {
      var proceeds := sells[i].notional - sells[i].fees;
      if proceeds < 0 {
        assert sells[i] in sells && SellShort(sells[i]);
        return false;
      }
      assert sells[..i + 1][..i] == sells[..i];
      wallet.ScheduleCredit(sells[i].arrival, proceeds);
    }
    assert sells[..|sells|] == sells;
    return true;
  }

  method DebitPurchases(wallet: W.ReplayWallet, buys: seq<SimulatedOrder>) returns (v: W.Verdict)
    modifies wallet
    ensures (wallet.State(), v) == DebitBuys(old(wallet.State()), buys)
  {
    for i := 0 to |buys|
      invariant (wallet.State(), W.Fine) == DebitBuys(old(wallet.State()), buys[..i])
    {
      assert buys[..i + 1][..i] == buys[..i];
      v := wallet.Debit(buys[i].arrival, buys[i].notional + buys[i].fees);
      if v != W.Fine {
        RefusedStays(old(wallet.State()), buys, i + 1);
        return v;
      }
    }
    assert buys[..|buys|] == buys;
    return W.Fine;
  }

  /** Applies one result to the wallet: sale proceeds and the payout are scheduled for their own times,
      purchases are debited at their arrival, and the change in equity must be the net profit. */
  method ApplyResult(wallet: W.ReplayWallet, end: int, resolution: Option<int>, e: EpisodeResult)
    returns (verdict: Applied)
    modifies wallet
    ensures verdict.SellFeesExceedProceeds? <==>
      exists o <- Sells(ByArrival(FilledOnly(e.orders))) :: SellShort(o)
    ensures !verdict.SellFeesExceedProceeds? ==>
      var (after, v) := DebitBuys(WithCredits(old(wallet.State()), end, resolution, e),
                                  Buys(ByArrival(FilledOnly(e.orders))));
      && wallet.State() == after
      && verdict == if v != W.Fine then Ledger(v)
                    else if W.Equity(after) - W.Equity(old(wallet.State())) != e.net then DoesNotReconcile
                    else Fine
  {
    hide ByArrival, FilledOnly, Sells, Buys, CreditSells, DebitBuys, W.Scheduled;
    var before := W.Equity(wallet.State());
    var ordered := ByArrival(FilledOnly(e.orders));
    var ok := ScheduleSales(wallet, Sells(ordered));
    if !ok {
      return SellFeesExceedProceeds;
    }
    if e.settledShares != 0 {
      wallet.ScheduleCredit(PayoutTime(end, resolution), e.payout);
    }
    var v := DebitPurchases(wallet, Buys(ordered));
    if v != W.Fine {
      return Ledger(v);
    }
    if W.Equity(wallet.State()) - before != e.net {
      return DoesNotReconcile;
    }
    return Fine;
  }

  lemma {:induction false} RefusedStays(l: W.Ledger, buys: seq<SimulatedOrder>, n: nat)
    requires n <= |buys| && DebitBuys(l, buys[..n]).1 != W.Fine
    ensures DebitBuys(l, buys) == DebitBuys(l, buys[..n])
    decreases |buys|
  {
    if n == |buys| {
      assert buys[..n] == buys;
    } else {
      var init := buys[..|buys| - 1];
      assert init[..n] == buys[..n];
      RefusedStays(l, init, n);
    }
  }

  /** Earlier arrivals come first, and at one arrival sales come before purchases. */
  ghost predicate InArrivalOrder(orders: seq<SimulatedOrder>)
  {
    forall i, j :: 0 <= i < j < |orders| ==>
      || orders[i].arrival < orders[j].arrival
      || (orders[i].arrival == orders[j].arrival && (!orders[i].kind.Entry? || orders[j].kind.Entry?))
  }

  lemma OrderSnoc(orders: seq<SimulatedOrder>, o: SimulatedOrder)
    requires InArrivalOrder(orders) && forall x <- orders :: NotAfter(x, o)
    ensures InArrivalOrder(orders + [o])
  {
    assert forall i :: 0 <= i < |orders| ==> orders[i] in orders && NotAfter(orders[i], o);
  }

  lemma LastIsLatest(orders: seq<SimulatedOrder>, o: SimulatedOrder)
    requires InArrivalOrder(orders) && orders != [] && NotAfter(orders[|orders| - 1], o)
    ensures forall x <- orders :: NotAfter(x, o)
  {
  }

  lemma OthersAreEarlier(orders: seq<SimulatedOrder>)
    requires InArrivalOrder(orders) && orders != []
    ensures InArrivalOrder(orders[..|orders| - 1])
    ensures var init, last := orders[..|orders| - 1], orders[|orders| - 1]; forall x <- init :: NotAfter(x, last)
  {
  }

  lemma {:induction false} InsertedInOrder(orders: seq<SimulatedOrder>, o: SimulatedOrder)
    requires InArrivalOrder(orders)
    ensures InArrivalOrder(Inserted(orders, o)) && multiset(Inserted(orders, o)) == multiset(orders) + multiset{o}
  {
    hide InArrivalOrder;
    if orders == [] {
      NothingInOrder();
      OrderSnoc([], o);
      assert orders + [o] == [] + [o];
    } else if NotAfter(orders[|orders| - 1], o) {
      LastIsLatest(orders, o);
      OrderSnoc(orders, o);
    } else {
      var init, last := orders[..|orders| - 1], orders[|orders| - 1];
      assert orders == init + [last];
      OthersAreEarlier(orders);
      InsertedInOrder(init, o);
      forall x | x in Inserted(init, o) ensures NotAfter(x, last) {
        assert x in multiset(Inserted(init, o));
        if x != o { assert x in init; }
      }
      OrderSnoc(Inserted(init, o), last);
    }
  }

  /** The cashflows of a result are applied in this order, none lost and none twice. */
  lemma {:induction false} AppliedInOrder(orders: seq<SimulatedOrder>)
    ensures InArrivalOrder(ByArrival(orders)) && multiset(ByArrival(orders)) == multiset(orders)
  {
    hide Inserted, InArrivalOrder;
    if orders != [] {
      var init, last := orders[..|orders| - 1], orders[|orders| - 1];
      assert orders == init + [last];
      AppliedInOrder(init);
      InsertedInOrder(ByArrival(init), last);
    } else {
      NothingInOrder();
    }
  }

  lemma NothingInOrder()
    ensures InArrivalOrder([])
  {
  }

  // ---- ordering keeps what matters ----------------------------------------------------------

  lemma {:induction false} InsertedSums(orders: seq<SimulatedOrder>, o: SimulatedOrder)
    ensures SellProceeds(Inserted(orders, o)) == SellProceeds(orders + [o])
    ensures o.kind.Entry? ==> Sells(Inserted(orders, o)) == Sells(orders)
    ensures forall x :: x in Inserted(orders, o) <==> x == o || x in orders
  {
    OneMoreOrder(orders, o);
    if orders != [] && !NotAfter(orders[|orders| - 1], o) {
      var init, last := orders[..|orders| - 1], orders[|orders| - 1];
      InsertedSums(init, o);
      OneMoreOrder(init, o);
      OneMoreOrder(Inserted(init, o), last);
      assert (Inserted(init, o) + [last])[..|Inserted(init, o)|] == Inserted(init, o);
    } else {
      assert (orders + [o])[..|orders|] == orders;
    }
  }

  /** Inserting a purchase no earlier than any purchase before it appends it to the purchases. */
  lemma {:induction false} InsertedBuys(orders: seq<SimulatedOrder>, o: SimulatedOrder)
    requires o.kind.Entry? ==> forall b <- orders :: b.kind.Entry? ==> b.arrival <= o.arrival
    ensures Buys(Inserted(orders, o)) == Buys(orders) + if o.kind.Entry? then [o] else []
  {
    if orders == [] || NotAfter(orders[|orders| - 1], o) {
      assert (orders + [o])[..|orders|] == orders;
    } else {
      var init, last := orders[..|orders| - 1], orders[|orders| - 1];
      assert last in orders;
      InsertedBuys(init, o);
      assert (Inserted(init, o) + [last])[..|Inserted(init, o)|] == Inserted(init, o);
    }
  }

  lemma {:induction false} OrderedMembers(orders: seq<SimulatedOrder>)
    ensures forall x :: x in ByArrival(orders) <==> x in orders
    ensures SellProceeds(ByArrival(orders)) == SellProceeds(orders)
  {
    hide Inserted, SellProceeds;
    if orders != [] {
      var init, last := orders[..|orders| - 1], orders[|orders| - 1];
      OrderedMembers(init);
      InsertedSums(ByArrival(init), last);
      OneMoreOrder(ByArrival(init), last);
      OneMoreOrder(init, last);
      assert orders == init + [last];
    }
  }

  lemma {:induction false} OrderedBuys(orders: seq<SimulatedOrder>)
    requires BuysInOrder(orders) && forall o <- orders :: o.filled > 0
    ensures Buys(ByArrival(orders)) == Buys(orders)
  {
    hide Inserted;
    if orders != [] {
      var init, last := orders[..|orders| - 1], orders[|orders| - 1];
      OrderedBuys(init);
      OrderedMembers(init);
      forall b | b in ByArrival(init) && b.kind.Entry? && last.kind.Entry? ensures b.arrival <= last.arrival {
        var i :| 0 <= i < |init| && init[i] == b;
        assert orders[i] in orders && last in orders;
        assert FilledBuy(orders[i]) && FilledBuy(orders[|orders| - 1]);
      }
      InsertedBuys(ByArrival(init), last);
    }
  }

  /** Dropping unfilled orders drops no cash: they moved none. */
  lemma {:induction false} FilledKeeps(orders: seq<SimulatedOrder>)
    requires forall o <- orders :: o.filled == 0 ==> o.notional == 0 && o.fees == 0
    ensures SellProceeds(FilledOnly(orders)) == SellProceeds(orders)
  {
    hide SellProceeds;
    if orders != [] {
      var init, last := orders[..|orders| - 1], orders[|orders| - 1];
      FilledKeeps(init);
      OneMoreOrder(FilledOnly(init), last);
      OneMoreOrder(init, last);
      assert last in orders && init + [last] == orders;
      assert FilledOnly(init) + [] == FilledOnly(init);
    }
  }

  /** The purchases applied to the wallet, in the order they were sent. */
  function Purchases(orders: seq<SimulatedOrder>): seq<SimulatedOrder> { Buys(FilledOnly(orders)) }

  lemma PurchasesSnoc(orders: seq<SimulatedOrder>)
    requires orders != []
    ensures var init, last := orders[..|orders| - 1], orders[|orders| - 1];
      Purchases(orders) == Purchases(init) + if last.kind.Entry? && last.filled != 0 then [last] else []
  {
    var init, last := orders[..|orders| - 1], orders[|orders| - 1];
    assert (FilledOnly(init) + [last])[..|FilledOnly(init)|] == FilledOnly(init);
    assert FilledOnly(init) + [] == FilledOnly(init);
  }

  function CostSum(buys: seq<SimulatedOrder>): int
  {
    if buys == [] then 0
    else CostSum(buys[..|buys| - 1]) + buys[|buys| - 1].notional + buys[|buys| - 1].fees
  }

  lemma {:induction false} FilledInOrder(orders: seq<SimulatedOrder>)
    requires BuysInOrder(orders) && forall o <- orders :: o.filled >= 0
    ensures BuysInOrder(FilledOnly(orders))
    ensures forall x <- FilledOnly(orders) :: x in orders
  {
    if orders != [] {
      var init, last := orders[..|orders| - 1], orders[|orders| - 1];
      FilledInOrder(init);
      forall x | x in FilledOnly(init) && FilledBuy(x) && FilledBuy(last) ensures x.arrival <= last.arrival {
        var i :| 0 <= i < |init| && init[i] == x;
        assert FilledBuy(orders[i]) && FilledBuy(orders[|orders| - 1]);
      }
    }
  }

  // ---- purchases against the wallet ---------------------------------------------------------

  /** One purchase the ledger can pay: no earlier than the ledger's time or than the purchase before it,
      and together with all purchases before it within the cash there will be by then. */
  ghost predicate PayableAt(l: W.Ledger, buys: seq<SimulatedOrder>, i: nat)
    requires i < |buys|
  {
    var o := buys[i];
    && o.arrival >= l.now && o.notional >= 0 && o.fees >= 0
    && (i > 0 ==> buys[i - 1].arrival <= o.arrival)
    && CostSum(buys[..i + 1]) <= W.Peek(l, o.arrival)
  }

  ghost predicate Payable(l: W.Ledger, buys: seq<SimulatedOrder>)
  {
    forall i :: 0 <= i < |buys| ==> PayableAt(l, buys, i)
  }

  lemma {:induction false} DueAfterDrain(pending: seq<W.Credit>, a: int, t: int, l: W.Ledger)
    requires a <= t && pending == l.pending
    ensures W.Drained(l, a).available + W.DueBy(W.Drained(l, a).pending, t) == l.available + W.DueBy(l.pending, t)
    decreases |l.pending|
  {
    if l.pending != [] && l.pending[0].time <= a { DueAfterDrain(l.pending[1..], a, t, W.Released(l)); }
  }

  /** A successful debit lowers every later peek by its amount. */
  lemma PeekAfterDebit(l: W.Ledger, a: int, amount: nat, t: int)
    requires l.now <= a <= t && W.Debited(l, a, amount).1 == W.Fine
    ensures W.Debited(l, a, amount).0.now == a
    ensures W.Peek(W.Debited(l, a, amount).0, t) == W.Peek(l, t) - amount
  {
    DueAfterDrain(l.pending, a, t, l);
  }

  lemma OneDebit(start: int, l: W.Ledger, time: int, amount: int)
    requires W.Sound(start, l) && l.now <= time && 0 <= amount <= W.Peek(l, time)
    ensures var (after, v) := W.Debited(l, time, amount);
      && v == W.Fine && W.Sound(start, after) && after.now == time && W.Equity(after) == W.Equity(l) - amount
      && (forall t: int :: t >= time ==> W.Peek(after, t) == W.Peek(l, t) - amount)
  {
    hide W.Sound, W.Drained;
    W.AdvancedSound(start, l, time);
    W.MovedSound(start, W.Advanced(l, time), -amount);
    forall t: int | t >= time ensures W.Peek(W.Debited(l, time, amount).0, t) == W.Peek(l, t) - amount {
      PeekAfterDebit(l, time, amount, t);
    }
  }

  lemma PayablePrefix(l: W.Ledger, buys: seq<SimulatedOrder>, more: seq<SimulatedOrder>, i: nat)
    requires i < |buys|
    ensures PayableAt(l, buys + more, i) <==> PayableAt(l, buys, i)
  {
    hide W.Peek, CostSum;
    assert (buys + more)[..i + 1] == buys[..i + 1];
  }

  lemma PayableInit(l: W.Ledger, buys: seq<SimulatedOrder>)
    requires buys != [] && Payable(l, buys)
    ensures Payable(l, buys[..|buys| - 1])
    ensures var o := buys[|buys| - 1];
      && o.arrival >= l.now && o.notional + o.fees >= 0
      && CostSum(buys[..|buys| - 1]) + o.notional + o.fees <= W.Peek(l, o.arrival)
      && (|buys| > 1 ==> buys[|buys| - 2].arrival <= o.arrival)
  {
    hide W.Peek;
    var n := |buys| - 1;
    var init := buys[..n];
    assert PayableAt(l, buys, n) && buys[..n + 1] == buys && buys == init + [buys[n]];
    forall i | 0 <= i < n ensures PayableAt(l, init, i) { PayablePrefix(l, init, [buys[n]], i); }
  }

  lemma PayableSnoc(l: W.Ledger, buys: seq<SimulatedOrder>, o: SimulatedOrder)
    requires Payable(l, buys) && o.arrival >= l.now && o.notional >= 0 && o.fees >= 0
    requires forall b <- buys :: b.arrival <= o.arrival
    requires CostSum(buys) + o.notional + o.fees <= W.Peek(l, o.arrival)
    ensures Payable(l, buys + [o]) && CostSum(buys + [o]) == CostSum(buys) + o.notional + o.fees
  {
    hide W.Peek, PayableAt;
    var n, all := |buys|, buys + [o];
    assert all[..n] == buys && all[..n + 1] == all;
    forall i | 0 <= i < |all| ensures PayableAt(l, all, i) {
      if i < n { PayablePrefix(l, buys, [o], i); } else { LastPayable(l, buys, o); }
    }
  }

  lemma LastPayable(l: W.Ledger, buys: seq<SimulatedOrder>, o: SimulatedOrder)
    requires o.arrival >= l.now && o.notional >= 0 && o.fees >= 0
    requires forall b <- buys :: b.arrival <= o.arrival
    requires CostSum(buys) + o.notional + o.fees <= W.Peek(l, o.arrival)
    ensures PayableAt(l, buys + [o], |buys|)
  {
    hide W.Peek;
    var all := buys + [o];
    assert all[..|buys| + 1] == all && all[..|buys|] == buys;
    if buys != [] { assert all[|buys| - 1] in buys; }
  }

  /** Every purchase is debited in full, and equity falls by exactly what they cost. */
  lemma {:induction false} PurchasesDebited(start: int, l: W.Ledger, buys: seq<SimulatedOrder>)
    requires W.Sound(start, l) && Payable(l, buys)
    ensures var (after, v) := DebitBuys(l, buys);
      && v == W.Fine && W.Sound(start, after)
      && W.Equity(after) == W.Equity(l) - CostSum(buys)
      && after.now == (if buys == [] then l.now else buys[|buys| - 1].arrival)
      && (forall t: int :: t >= after.now ==> t >= l.now && W.Peek(after, t) == W.Peek(l, t) - CostSum(buys))
  {
    hide W.Sound, W.Debited, W.Peek, W.Equity, Payable;
    if buys != [] {
      var o := buys[|buys| - 1];
      PayableInit(l, buys);
      PurchasesDebited(start, l, buys[..|buys| - 1]);
      var before := DebitBuys(l, buys[..|buys| - 1]).0;
      OneDebit(start, before, o.arrival, o.notional + o.fees);
    }
  }

  // ---- one episode --------------------------------------------------------------------------

  /** The wallet's cash as the simulator may query it: now or later, never earlier. */
  function PeekOf(l: W.Ledger): int --> int { (t: int) requires t >= l.now => W.Peek(l, t) }

  lemma {:induction false} PurchaseMembers(orders: seq<SimulatedOrder>)
    requires forall o <- orders :: o.filled >= 0
    ensures forall b <- Purchases(orders) :: b in orders && FilledBuy(b)
  {
    if orders != [] {
      PurchaseMembers(orders[..|orders| - 1]);
      PurchasesSnoc(orders);
    }
  }

  /** No entry is decided before `time`. */
  ghost predicate EntriesFrom(orders: seq<SimulatedOrder>, time: int)
  {
    forall o <- orders :: o.kind.Entry? ==> o.decision >= time
  }

  /** A run within the wallet's cash leaves purchases the wallet can pay, and they cost what the run's buys
      cost. */
  lemma {:induction false} PurchasesPayable(orders: seq<SimulatedOrder>, l: W.Ledger, begin: int, end: int)
    requires (forall o <- orders :: OrderOk(o, begin, end)) && BuysInOrder(orders) && EntriesFrom(orders, l.now)
    requires Episodes.Affordable(orders, Some(PeekOf(l))) && forall t: int :: t >= l.now ==> W.Peek(l, t) >= 0
    ensures Payable(l, Purchases(orders)) && CostSum(Purchases(orders)) == BuyCost(orders)
  {
    hide W.Peek, Payable, Purchases, Episodes.Affordable;
    if orders == [] {
      NoPurchases(l);
    } else {
      var n := |orders| - 1;
      var init, last := orders[..n], orders[n];
      InitAffordable(orders, l);
      PurchasesPayable(init, l, begin, end);
      PurchasesSnoc(orders);
      assert last in orders;
      if last.kind.Entry? && last.filled != 0 {
        PurchaseMembers(init);
        forall b | b in Purchases(init) ensures b.arrival <= last.arrival {
          var i :| 0 <= i < n && init[i] == b;
          assert FilledBuy(orders[i]) && FilledBuy(orders[n]);
        }
        PayableSnoc(l, Purchases(init), last);
      } else {
        assert Purchases(init) + [] == Purchases(init);
      }
    }
  }

  lemma NoPurchases(l: W.Ledger)
    ensures Purchases([]) == [] && Payable(l, []) && BuyCost([]) == 0
  {
  }

  lemma InitAffordable(orders: seq<SimulatedOrder>, l: W.Ledger)
    requires orders != [] && Episodes.Affordable(orders, Some(PeekOf(l))) && BuysInOrder(orders)
    ensures Episodes.Affordable(orders[..|orders| - 1], Some(PeekOf(l))) && BuysInOrder(orders[..|orders| - 1])
    ensures FilledBuy(orders[|orders| - 1]) && orders[|orders| - 1].arrival >= l.now ==>
      BuyCost(orders) <= Max(0, W.Peek(l, orders[|orders| - 1].arrival))
  {
    hide W.Peek, BuyCost, Episodes.Affordable;
    FewerAffordable(orders, l);
    if FilledBuy(orders[|orders| - 1]) && orders[|orders| - 1].arrival >= l.now { LastAffordable(orders, l); }
  }

  lemma FewerAffordable(orders: seq<SimulatedOrder>, l: W.Ledger)
    requires orders != [] && Episodes.Affordable(orders, Some(PeekOf(l)))
    ensures Episodes.Affordable(orders[..|orders| - 1], Some(PeekOf(l)))
  {
    hide W.Peek, BuyCost;
    var n := |orders| - 1;
    forall i | 0 <= i < n ensures orders[..n][i] == orders[i] && orders[..n][..i + 1] == orders[..i + 1] {
    }
  }

  lemma LastAffordable(orders: seq<SimulatedOrder>, l: W.Ledger)
    requires orders != [] && Episodes.Affordable(orders, Some(PeekOf(l))) && FilledBuy(orders[|orders| - 1])
    requires orders[|orders| - 1].arrival >= l.now
    ensures BuyCost(orders) <= Max(0, W.Peek(l, orders[|orders| - 1].arrival))
  {
    hide W.Peek, BuyCost;
    assert orders[..|orders| - 1 + 1] == orders;
  }

  // ---- proceeds and the payout --------------------------------------------------------------

  lemma {:induction false} DueAfterQueue(pending: seq<W.Credit>, c: W.Credit, t: int)
    ensures W.DueBy(W.Queued(pending, c), t) == W.DueBy(pending, t) + if c.time <= t then c.amount else 0
  {
    if pending != [] && c.time >= pending[0].time { DueAfterQueue(pending[1..], c, t); }
  }

  /** A credit is there from its own time on, and not before. */
  lemma ScheduledPeek(l: W.Ledger, time: int, amount: nat, t: int)
    requires t >= l.now
    ensures W.Scheduled(l, time, amount).now == l.now
    ensures W.Peek(W.Scheduled(l, time, amount), t) == W.Peek(l, t) + if time <= t then amount else 0
  {
    DueAfterQueue(l.pending, W.Credit(time, l.sequence + 1, amount), t);
  }

  lemma OneCredit(start: int, l: W.Ledger, time: int, amount: int)
    requires W.Sound(start, l) && 0 <= amount
    ensures var after := W.Scheduled(l, time, amount);
      && W.Sound(start, after) && after.now == l.now && W.Equity(after) == W.Equity(l) + amount
      && forall t: int :: t >= l.now ==> W.Peek(after, t) == W.Peek(l, t) + if time <= t then amount else 0
  {
    hide W.Sound, W.Scheduled, W.Peek;
    W.ScheduledSound(start, l, time, amount);
    forall t: int | t >= l.now ensures W.Peek(W.Scheduled(l, time, amount), t) == W.Peek(l, t) + if time <= t then amount else 0 {
      ScheduledPeek(l, time, amount, t);
    }
  }

  function ProceedsSum(sells: seq<SimulatedOrder>): int
  {
    if sells == [] then 0
    else ProceedsSum(sells[..|sells| - 1]) + sells[|sells| - 1].notional - sells[|sells| - 1].fees
  }

  /** Proceeds of the sales that have arrived by `t`. */
  function ProceedsBy(orders: seq<SimulatedOrder>, t: int): int
  {
    if orders == [] then 0
    else
      var o := orders[|orders| - 1];
      ProceedsBy(orders[..|orders| - 1], t) + if !o.kind.Entry? && o.arrival <= t then o.notional - o.fees else 0
  }

  lemma OneMoreProceeds(orders: seq<SimulatedOrder>, o: SimulatedOrder, t: int)
    ensures ProceedsBy(orders + [o], t)
         == ProceedsBy(orders, t) + if !o.kind.Entry? && o.arrival <= t then o.notional - o.fees else 0
  {
  }

  lemma {:induction false} InsertedProceeds(orders: seq<SimulatedOrder>, o: SimulatedOrder, t: int)
    ensures ProceedsBy(Inserted(orders, o), t) == ProceedsBy(orders + [o], t)
  {
    hide ProceedsBy;
    if orders != [] && !NotAfter(orders[|orders| - 1], o) {
      var init, last := orders[..|orders| - 1], orders[|orders| - 1];
      InsertedProceeds(init, o, t);
      OneMoreProceeds(init, o, t);
      OneMoreProceeds(init, last, t);
      OneMoreProceeds(orders, o, t);
      OneMoreProceeds(Inserted(init, o), last, t);
      assert init + [last] == orders;
    }
  }

  /** Neither the order in which sales are applied nor leaving out empty orders changes what has arrived when. */
  lemma {:induction false} AppliedProceeds(orders: seq<SimulatedOrder>, t: int)
    ensures ProceedsBy(ByArrival(orders), t) == ProceedsBy(orders, t)
    ensures (forall o <- orders :: o.filled == 0 ==> o.notional == 0 && o.fees == 0) ==>
      ProceedsBy(FilledOnly(orders), t) == ProceedsBy(orders, t)
    ensures ProceedsBy(Sells(orders), t) == ProceedsBy(orders, t)
  {
    hide ProceedsBy, Inserted;
    if orders != [] {
      var init, last := orders[..|orders| - 1], orders[|orders| - 1];
      AppliedProceeds(init, t);
      assert init + [last] == orders && last in orders;
      OneMoreProceeds(init, last, t);
      InsertedProceeds(ByArrival(init), last, t);
      OneMoreProceeds(ByArrival(init), last, t);
      OneMoreProceeds(FilledOnly(init), last, t);
      OneMoreProceeds(Sells(init), last, t);
      assert FilledOnly(init) + [] == FilledOnly(init) && Sells(init) + [] == Sells(init);
    }
  }

  lemma {:induction false} NoLoss(sells: seq<SimulatedOrder>, t: int)
    requires forall o <- sells :: !SellShort(o)
    ensures ProceedsBy(sells, t) >= 0
  {
    if sells != [] {
      assert sells[|sells| - 1] in sells;
      NoLoss(sells[..|sells| - 1], t);
    }
  }

  /** The proceeds of sales can be spent from their arrival on, and not before. */
  lemma {:induction false} SalesScheduled(start: int, l: W.Ledger, sells: seq<SimulatedOrder>)
    requires W.Sound(start, l) && forall o <- sells :: !SellShort(o) && !o.kind.Entry?
    ensures var after := CreditSells(l, sells);
      && W.Sound(start, after) && after.now == l.now && W.Equity(after) == W.Equity(l) + ProceedsSum(sells)
      && forall t: int :: t >= l.now ==> W.Peek(after, t) == W.Peek(l, t) + ProceedsBy(sells, t)
  {
    hide W.Sound, W.Scheduled, W.Peek, W.Equity;
    if sells != [] {
      var init, o := sells[..|sells| - 1], sells[|sells| - 1];
      SalesScheduled(start, l, init);
      assert o in sells && !SellShort(o);
      OneCredit(start, CreditSells(l, init), o.arrival, o.notional - o.fees);
    }
  }

  lemma {:induction false} ProceedsOfSells(orders: seq<SimulatedOrder>)
    ensures ProceedsSum(Sells(orders)) == SellProceeds(orders)
    ensures forall o :: o in Sells(orders) <==> o in orders && !o.kind.Entry?
  {
    if orders != [] {
      var init, last := orders[..|orders| - 1], orders[|orders| - 1];
      ProceedsOfSells(init);
      assert (Sells(init) + [last])[..|Sells(init)|] == Sells(init);
      assert Sells(init) + [] == Sells(init);
      assert forall o :: o in orders <==> o in init || o == last;
    }
  }

  lemma PayableMore(l: W.Ledger, m: W.Ledger, buys: seq<SimulatedOrder>)
    requires Payable(l, buys) && m.now == l.now && forall t: int :: t >= l.now ==> W.Peek(m, t) >= W.Peek(l, t)
    ensures Payable(m, buys)
  {
    hide W.Peek, CostSum;
    forall i | 0 <= i < |buys| ensures PayableAt(m, buys, i) { assert PayableAt(l, buys, i); }
  }

  // ---- one episode reconciles ---------------------------------------------------------------

  /** The orders a result leaves to apply, in application order. */
  lemma AppliedOrders(orders: seq<SimulatedOrder>, begin: int, end: int)
    requires (forall o <- orders :: OrderOk(o, begin, end)) && BuysInOrder(orders)
    ensures var ordered := ByArrival(FilledOnly(orders));
      && Buys(ordered) == Purchases(orders)
      && ProceedsSum(Sells(ordered)) == SellProceeds(orders)
      && forall o <- Sells(ordered) :: o in orders && !o.kind.Entry?
  {
    hide ByArrival, SellProceeds, Sells, Buys;
    FilledKeeps(orders);
    FilledInOrder(orders);
    AllFilled(orders);
    OrderedBuys(FilledOnly(orders));
    OrderedMembers(FilledOnly(orders));
    ProceedsOfSells(ByArrival(FilledOnly(orders)));
  }

  lemma {:induction false} AllFilled(orders: seq<SimulatedOrder>)
    requires forall o <- orders :: o.filled >= 0
    ensures forall o <- FilledOnly(orders) :: o.filled > 0
  {
    if orders != [] { AllFilled(orders[..|orders| - 1]); }
  }

  /** Applying a simulated result to the wallet it traded from never meets missing cash, never moves time
      backwards and always reconciles, unless a sale's fee exceeds its notional. */
  lemma ResultReconciles(p: Params, tape: EpisodeTape, start: int, l: W.Ledger, r: Run, winner: Option<Token>,
                         resolution: Option<int>)
    requires W.Sound(start, l) && Kept(p, tape, Some(PeekOf(l)), r) && EntriesFrom(r.orders, l.now)
    requires var e := Finish(r, winner); !exists o <- Sells(ByArrival(FilledOnly(e.orders))) :: SellShort(o)
    ensures var e := Finish(r, winner);
      var (after, v) := DebitBuys(WithCredits(l, tape.end, resolution, e), Buys(ByArrival(FilledOnly(e.orders))));
      && v == W.Fine && W.Sound(start, after) && after.now <= Max(l.now, tape.end)
      && W.Equity(after) == W.Equity(l) + e.net
      && Adds(l, after, e, tape.end, resolution)
  {
    hide W.Sound, W.Peek, W.Scheduled, Payable, ByArrival, FilledOnly, Sells, Buys, CreditSells, DebitBuys, BuyCost,
      SellProceeds, ProceedsBy, PaidBy, Episodes.Affordable, Purchases, W.Equity, WithCredits, CostSum;
    var e := Finish(r, winner);
    ResultBalances(p, tape, Some(PeekOf(l)), r, winner);
    forall t: int | t >= l.now ensures W.Peek(l, t) >= 0 {
      W.AdvancedSound(start, l, t);
      W.NonNegative(start, W.Advanced(l, t));
    }
    PurchasesPayable(e.orders, l, tape.start, tape.end);
    AppliedOrders(e.orders, tape.start, tape.end);
    ResultCredits(start, l, tape.end, resolution, e);
    var funded, buys := WithCredits(l, tape.end, resolution, e), Purchases(e.orders);
    PayableMore(l, funded, buys);
    PurchasesDebited(start, funded, buys);
    PurchaseMembers(e.orders);
    if buys != [] {
      assert buys[|buys| - 1] in buys;
      assert buys[|buys| - 1].arrival <= tape.end;
    }
  }

  /** Shares held through settlement are paid once the market is over and resolved, or a minute after its end when
      nobody recorded its resolution. */
  predicate PaidBy(end: int, resolution: Option<int>, t: int)
  {
    t >= end && if resolution.Some? then t >= resolution.value else t >= end + 60_000_000_000
  }

  /** What a result has added to the cash there is at `t`: its buys are spent at once, its sales count from their arrival
      and its payout once it is paid. */
  function CashBy(e: EpisodeResult, end: int, resolution: Option<int>, t: int): int
  {
    ProceedsBy(e.orders, t) - BuyCost(e.orders) + if PaidBy(end, resolution, t) then e.payout else 0
  }

  /** The ledger after a result has exactly what the result adds, at any time from its own on. */
  ghost predicate Adds(l: W.Ledger, after: W.Ledger, e: EpisodeResult, end: int, resolution: Option<int>)
  {
    forall t: int :: t >= after.now ==> t >= l.now && W.Peek(after, t) == W.Peek(l, t) + CashBy(e, end, resolution, t)
  }

  /** The proceeds and the payout of a result raise equity by themselves, and each can be spent from its time on. */
  lemma ResultCredits(start: int, l: W.Ledger, end: int, resolution: Option<int>, e: EpisodeResult)
    requires W.Sound(start, l)
    requires forall o <- Sells(ByArrival(FilledOnly(e.orders))) :: !SellShort(o) && !o.kind.Entry?
    requires forall o <- e.orders :: o.filled == 0 ==> o.notional == 0 && o.fees == 0
    requires e.payout >= 0 && (e.settledShares == 0 ==> e.payout == 0)
    ensures var funded := WithCredits(l, end, resolution, e);
      && W.Sound(start, funded) && funded.now == l.now
      && W.Equity(funded) == W.Equity(l) + ProceedsSum(Sells(ByArrival(FilledOnly(e.orders)))) + e.payout
      && forall t: int :: t >= l.now ==>
           && W.Peek(funded, t) == W.Peek(l, t) + ProceedsBy(e.orders, t) + (if PaidBy(end, resolution, t) then e.payout else 0)
           && ProceedsBy(e.orders, t) >= 0
  {
    hide W.Sound, W.Peek, W.Scheduled, ByArrival, FilledOnly, Sells, CreditSells, ProceedsSum, W.Equity, ProceedsBy;
    var sells := Sells(ByArrival(FilledOnly(e.orders)));
    SalesScheduled(start, l, sells);
    forall t: int ensures ProceedsBy(sells, t) == ProceedsBy(e.orders, t) >= 0 {
      NoLoss(sells, t);
      AppliedProceeds(ByArrival(FilledOnly(e.orders)), t);
      AppliedProceeds(FilledOnly(e.orders), t);
      AppliedProceeds(e.orders, t);
    }
    OneCredit(start, CreditSells(l, sells), PayoutTime(end, resolution), e.payout);
  }

  // ---- the compounded run -------------------------------------------------------------------

  /** One market as the runner meets it. */
  datatype Episode = Episode(tape: EpisodeTape, winner: Option<Token>, resolution: Option<int>, latency: nat -> nat)

  datatype RunStatus = Completed | PlanWasRejected | SaleShort | PastAsked

  datatype RunOutcome = RunOutcome(status: RunStatus, results: seq<EpisodeResult>, balance: int, endedEarly: bool)

  function NetSum(results: seq<EpisodeResult>): int
  {
    if results == [] then 0 else NetSum(results[..|results| - 1]) + results[|results| - 1].net
  }

  /** What these results, of the first markets in turn, have added to the cash there is at `t`. */
  function CashFrom(markets: seq<Episode>, results: seq<EpisodeResult>, t: int): int
    requires |results| <= |markets|
  {
    if results == [] then 0
    else
      var n := |results| - 1;
      CashFrom(markets, results[..n], t) + CashBy(results[n], markets[n].tape.end, markets[n].resolution, t)
  }

  /** At any time from its own on, the wallet has the opening balance and what the results have added by then: no sale
      counts before it arrived, and no payout before it is paid. */
  ghost predicate Spendable(l: W.Ledger, balance: int, markets: seq<Episode>, results: seq<EpisodeResult>)
    requires |results| <= |markets|
  {
    forall t: int :: t >= l.now ==> W.Peek(l, t) == balance + CashFrom(markets, results, t)
  }

  /** Every market was traded with money left. */
  ghost predicate Solvent(balance: int, results: seq<EpisodeResult>)
  {
    forall i :: 0 <= i < |results| ==> balance + NetSum(results[..i]) > 0
  }

  lemma NoneTraded(balance: int)
    ensures Solvent(balance, [])
  {
  }

  lemma SolventAfter(balance: int, results: seq<EpisodeResult>, e: EpisodeResult)
    requires Solvent(balance, results) && balance + NetSum(results) > 0
    ensures Solvent(balance, results + [e])
  {
    hide NetSum;
    var all := results + [e];
    assert all[..|results|] == results;
    assert forall i :: 0 <= i < |results| ==> all[..i] == results[..i];
  }

  lemma {:induction false} DueWithin(pending: seq<W.Credit>, t: int)
    requires forall c <- pending :: c.amount >= 0
    ensures 0 <= W.DueBy(pending, t) <= W.SumOf(pending)
  {
    if pending != [] {
      assert pending[0] in pending;
      DueWithin(pending[1..], t);
    }
  }

  /** A market stakes all cash there is when it decides, and never cash that is only due later. */
  lemma StakesAllCash(p: Params, start: int, l: W.Ledger, t: int)
    requires p.orderNotional.Some? && W.Sound(start, l) && t >= l.now && W.Peek(l, t) > 0
    ensures SpendOf(Budgeted(p, l), Some(PeekOf(l)), 0, t).0 == Some(W.Peek(l, t))
  {
    hide W.LogOk, W.Ordered;
    DueWithin(l.pending, t);
    var peek, source := PeekOf(l), RunCash(Budgeted(p, l), Some(PeekOf(l)), 0);
    assert peek.requires(t) && peek(t) == W.Peek(l, t);
    assert source.value.requires(t) && source.value(t) == Max(0, Max(0, peek(t)) - 0);
    assert CashAt(source, t) == Some(W.Peek(l, t));
  }

  lemma SpendableAfter(l: W.Ledger, m: W.Ledger, balance: int, markets: seq<Episode>, results: seq<EpisodeResult>,
                       e: EpisodeResult)
    requires |results| < |markets| && Spendable(l, balance, markets, results)
    requires Adds(l, m, e, markets[|results|].tape.end, markets[|results|].resolution)
    ensures Spendable(m, balance, markets, results + [e])
  {
    hide W.Peek, CashBy;
    var all := results + [e];
    assert all[..|results|] == results;
  }

  lemma SpendableAtFirst(balance: nat, now: nat, markets: seq<Episode>)
    ensures Spendable(W.OpenLedger(balance, now), balance, markets, [])
  {
  }

  ghost predicate AllWellFormed(markets: seq<Episode>)
  {
    forall m <- markets :: WellFormed(m.tape) && 0 <= m.tape.start <= m.tape.end
  }

  /** No market starts before the one before it has ended. */
  ghost predicate Sequenced(markets: seq<Episode>)
  {
    forall i, j :: 0 <= i < j < |markets| ==> markets[i].tape.end <= markets[j].tape.start
  }

  /** The first row that may trigger an entry asks the wallet for its cash then. Asking about a time before the
      wallet's own is an error. */
  predicate AsksPast(p: Params, tape: EpisodeTape, now: int)
  {
    exists r <- tape.rows :: Opens(p, tape, r) && r.time < now
  }

  /** A run between two markets; `halt` says why it trades no more. */
  datatype Halt = OutOfMoney | RejectedPlan | ShortSale | AskedPast

  datatype MarketState = MarketState(ledger: W.Ledger, results: seq<EpisodeResult>, halt: Option<Halt>)

  /** The whole equity is the budget of the next market. */
  function Budgeted(p: Params, l: W.Ledger): Params { p.(orderNotional := Some(Max(1, W.Equity(l)))) }

  predicate AnySaleShort(e: EpisodeResult)
  {
    exists o <- Sells(ByArrival(FilledOnly(e.orders))) :: SellShort(o)
  }

  /** One market: trade it from the wallet as it stands, then apply its cashflows to the wallet. */
  ghost function MarketStep(p: Params, realism: Realism, st: MarketState, m: Episode): MarketState
    requires realism.Valid() && p.Valid() && p.orderNotional.Some?
  {
    if st.halt.Some? then st
    else if W.Equity(st.ledger) <= 0 then st.(halt := Some(OutOfMoney))
    else if AsksPast(Budgeted(p, st.ledger), m.tape, st.ledger.now) then st.(halt := Some(AskedPast))
    else
      var e := EpisodeAfter(Venue(m.tape, realism, m.latency), Budgeted(p, st.ledger), Some(PeekOf(st.ledger)),
                            NO_IMPACT, m.tape.rows);
      var result := Finish(e.run, m.winner);
      if e.status.Rejected? then st.(halt := Some(RejectedPlan))
      else if AnySaleShort(result) then st.(halt := Some(ShortSale))
      else
        MarketState(DebitBuys(WithCredits(st.ledger, m.tape.end, m.resolution, result),
                              Buys(ByArrival(FilledOnly(result.orders)))).0,
                    st.results + [result], None)
  }

  /** A run decides its entries on rows that may trigger one, or later. */
  ghost predicate Opened(v: Venue, p: Params, e: EpisodeState, time: int)
  {
    && (e.status.Going? ==> (e.run.entered <==> e.run.shares > 0)) && e.run.entries >= 0
    && v.tape.start + p.entryFrom <= e.run.nextEntry && EntriesFrom(e.run.orders, time)
  }

  lemma RowOpened(v: Venue, p: Params, cash: CashSource, e: EpisodeState, row: Row, time: int)
    requires v.realism.Valid() && p.Valid() && Opened(v, p, e, time) && (Opens(p, v.tape, row) ==> time <= row.time)
    ensures Opened(v, p, RowStep(v, p, cash, e, row), time)
  {
    hide ExitStep, ImmediateStep, SequentialStep, ParentAfter, OffsetsOf, CashPending, EntrySent, Opens;
    var r := e.run;
    if e.status.Going? && row.time <= v.tape.end {
      if r.shares > 0 && row.token == r.token && row.time >= r.effective {
        ExitShape(v, p, r, e.impact, if row.bids == [] then None else Some(row.bids[0].price), row.token, row.time);
      } else if r.shares <= 0 && Triggers(p, r, row) && row.time <= v.tape.start + p.entryTo {
        EntersOpen(p, v.tape, r, row);
        if p.entry.Immediate? {
          EntryShape(v, p, r, e.impact, row, cash);
        } else if row.time < DeadlineOf(v, p, row.time) && SequentialStep(v, p, r, e.impact, row, cash).Some? {
          ParentOpened(v, p, r, e.impact, row, cash);
        }
      }
    }
  }

  lemma ParentOpened(v: Venue, p: Params, r: Run, s: Impact, row: Row, cash: CashSource)
    requires v.realism.Valid() && p.Valid() && p.entry.Sequential? && row.asks != [] && row.asks[0].price > 0
    requires row.time < DeadlineOf(v, p, row.time) && !r.entered && SequentialStep(v, p, r, s, row, cash).Some?
    requires r.shares <= 0 && r.entries >= 0 && v.tape.start + p.entryFrom <= row.time
    ensures var after := SequentialStep(v, p, r, s, row, cash).value.0;
      && (after.entered <==> after.shares > 0) && after.entries >= 0 && v.tape.start + p.entryFrom <= after.nextEntry
      && forall time :: time <= row.time && EntriesFrom(r.orders, time) ==> EntriesFrom(after.orders, time)
  {
    hide ParentAfter, SequentialStep, OffsetsOf;
    ParentEntryShape(v, p, r, s, row, cash);
    var parent := ParentOf(v, p, r, row, cash);
    var offsets := OffsetsOf(v, parent);
    ParentShape(v, parent, RunCash(p, cash, r.debited), s, offsets);
    var outcomes := ParentAfter(v, parent, RunCash(p, cash, r.debited), s, offsets).outcomes;
    forall i | 0 <= i < |outcomes| ensures outcomes[i].decision >= row.time {
      assert ChildShape(v, parent, s.draws, offsets, outcomes[i]);
    }
  }

  lemma {:induction false} EpisodeOpened(v: Venue, p: Params, cash: CashSource, start: Impact, rows: seq<Row>, time: int)
    requires v.realism.Valid() && p.Valid() && forall r <- rows :: Opens(p, v.tape, r) ==> time <= r.time
    ensures Opened(v, p, EpisodeAfter(v, p, cash, start, rows), time)
  {
    hide RowStep, Opens;
    if rows != [] {
      assert rows[|rows| - 1] in rows;
      EpisodeOpened(v, p, cash, start, rows[..|rows| - 1], time);
      RowOpened(v, p, cash, EpisodeAfter(v, p, cash, start, rows[..|rows| - 1]), rows[|rows| - 1], time);
    }
  }

  ghost function MarketsAfter(p: Params, realism: Realism, opening: W.Ledger, markets: seq<Episode>): MarketState
    requires realism.Valid() && p.Valid() && p.orderNotional.Some?
  {
    if markets == [] then MarketState(opening, [], None)
    else MarketStep(p, realism, MarketsAfter(p, realism, opening, markets[..|markets| - 1]), markets[|markets| - 1])
  }

  lemma MarketOneMore(p: Params, realism: Realism, opening: W.Ledger, markets: seq<Episode>, i: nat)
    requires realism.Valid() && p.Valid() && p.orderNotional.Some? && i < |markets|
    ensures MarketsAfter(p, realism, opening, markets[..i + 1])
         == MarketStep(p, realism, MarketsAfter(p, realism, opening, markets[..i]), markets[i])
  {
    hide MarketStep;
    assert markets[..i + 1][..i] == markets[..i];
  }

  lemma NoMarkets(p: Params, realism: Realism, opening: W.Ledger, markets: seq<Episode>)
    requires realism.Valid() && p.Valid() && p.orderNotional.Some?
    ensures MarketsAfter(p, realism, opening, markets[..0]) == MarketState(opening, [], None)
  {
  }

  lemma {:induction false} MarketsStay(p: Params, realism: Realism, opening: W.Ledger, markets: seq<Episode>, i: nat)
    requires realism.Valid() && p.Valid() && p.orderNotional.Some? && i <= |markets|
    requires i < |markets| ==> MarketsAfter(p, realism, opening, markets[..i]).halt.Some?
    ensures MarketsAfter(p, realism, opening, markets) == MarketsAfter(p, realism, opening, markets[..i])
    decreases |markets|
  {
    hide EpisodeAfter, Finish, DebitBuys, WithCredits, ByArrival, FilledOnly, Buys, AnySaleShort;
    if i == |markets| {
      assert markets[..i] == markets;
    } else {
      var init := markets[..|markets| - 1];
      assert init[..i] == markets[..i];
      MarketsStay(p, realism, opening, init, i);
    }
  }

  function BeginOf(markets: seq<Episode>): int { if markets == [] then 0 else markets[0].tape.start }

  /** Trades every market in turn from one wallet, overlapping or not. The run ends with total equity equal to
      the starting balance plus the sum of net profits. It can only stop with an error when a parent is asked
      for no shares, when a sale's fee exceeds its notional, or when a market that overlaps an earlier one asks
      the wallet about its past; never for missing cash, for a debit in the past, or for reconciliation. */
  method RunMarkets(markets: seq<Episode>, p: Params, realism: Realism, balance: nat) returns (out: RunOutcome)
    requires AllWellFormed(markets) && p.Valid() && p.orderNotional.Some? && realism.Valid()
    ensures var st := MarketsAfter(p, realism, W.OpenLedger(balance, BeginOf(markets)), markets);
      && out.results == st.results && out.endedEarly == (st.halt == Some(OutOfMoney))
      && (out.status.PlanWasRejected? <==> st.halt == Some(RejectedPlan))
      && (out.status.SaleShort? <==> st.halt == Some(ShortSale))
      && (out.status.PastAsked? <==> st.halt == Some(AskedPast))
    ensures Sequenced(markets) ==> !out.status.PastAsked?
    ensures out.status.Completed? ==> out.balance == balance + NetSum(out.results)
    ensures out.status.Completed? && !out.endedEarly ==> |out.results| == |markets|
    ensures out.status.PlanWasRejected? ==> p.entry.Sequential?
    ensures |out.results| <= |markets| && Solvent(balance, out.results)
    ensures out.endedEarly ==> balance + NetSum(out.results) <= 0
    ensures var st := MarketsAfter(p, realism, W.OpenLedger(balance, BeginOf(markets)), markets);
      Spendable(st.ledger, balance, markets, out.results)
  {
    hide Accounted, Spendable, Solvent, Adds, SettledFor, W.Sound, Kept, WellFormed, NetSum, Sells, Buys, ByArrival,
      FilledOnly, DebitBuys, WithCredits, W.Equity, W.Peek,
      MarketsAfter, EpisodeAfter, Finish, PeekOf, AsksPast, Answers, Sequenced;
    assert markets != [] ==> markets[0] in markets;
    var wallet := new W.ReplayWallet(balance, BeginOf(markets));
    ghost var opening := wallet.State();
    AccountedAtFirst(balance, BeginOf(markets), markets);
    var results, endedEarly, i := [], false, 0;
    NoMarkets(p, realism, opening, markets);
    while i < |markets|
      invariant 0 <= i == |results| <= |markets| && fresh(wallet)
      invariant Sequenced(markets) ==> wallet.now <= (if i == 0 then BeginOf(markets) else markets[i - 1].tape.end)
      invariant Accounted(wallet.State(), balance, markets, results)
      invariant MarketsAfter(p, realism, opening, markets[..i]) == MarketState(wallet.State(), results, None)
    {
      assert markets[i] in markets;
      if i > 0 { InSequence(markets, i); }
      AccountedFor(wallet.State(), balance, markets, results);
      MarketOneMore(p, realism, opening, markets, i);
      if W.Equity(wallet.State()) <= 0 {
        MarketsStay(p, realism, opening, markets, i + 1);
        endedEarly := true;
        break;
      }
      var tape, l := markets[i].tape, wallet.State();
      var replay := new EpisodeReplay(tape, realism, markets[i].latency);
      if AsksPast(Budgeted(p, l), tape, wallet.now) {
        MarketsStay(p, realism, opening, markets, i + 1);
        OpensLater(Budgeted(p, l), tape, wallet.now);
        return RunOutcome(PastAsked, results, 0, false);
      }
      PeekDomain(Budgeted(p, l), tape, l);
      var played, r := RunEpisode(replay, Budgeted(p, l), markets[i].winner, Some(PeekOf(l)));
      if played.PlanRejected? {
        MarketsStay(p, realism, opening, markets, i + 1);
        return RunOutcome(PlanWasRejected, results, 0, false);
      }
      var verdict := ApplyResult(wallet, tape.end, markets[i].resolution, played.result);
      if verdict.SellFeesExceedProceeds? {
        MarketsStay(p, realism, opening, markets, i + 1);
        return RunOutcome(SaleShort, results, 0, false);
      }
      MarketOpened(replay.At(), Budgeted(p, l), l);
      ResultReconciles(Budgeted(p, l), tape, balance, l, r, markets[i].winner, markets[i].resolution);
      assert verdict.Fine?;
      AccountedAfter(l, wallet.State(), balance, markets, results, played.result);
      results := results + [played.result];
      i := i + 1;
    }
    if !endedEarly { MarketsStay(p, realism, opening, markets, i); }
    AccountedFor(wallet.State(), balance, markets, results);
    out := Close(wallet, markets[..|results|], results, endedEarly, balance);
  }

  /** Releases what is due by the end of the last market traded and reports the total equity. */
  method Close(wallet: W.ReplayWallet, markets: seq<Episode>, results: seq<EpisodeResult>, endedEarly: bool, ghost balance: nat)
    returns (out: RunOutcome)
    requires W.Sound(balance, wallet.State())
    modifies wallet
    ensures out == RunOutcome(Completed, results, W.Equity(old(wallet.State())), endedEarly)
  {
    var horizon := wallet.now;
    for i := 0 to |markets|
      invariant horizon >= wallet.now
    {
      horizon := Max(horizon, markets[i].tape.end);
    }
    W.AdvancedSound(balance, wallet.State(), horizon);
    var _ := wallet.AdvanceTo(horizon);
    out := RunOutcome(Completed, results, W.Equity(wallet.State()), endedEarly);
  }

  lemma InSequence(markets: seq<Episode>, i: nat)
    requires 0 < i < |markets|
    ensures Sequenced(markets) ==> markets[i - 1].tape.end <= markets[i].tape.start
  {
  }

  lemma OpenSound(cash: nat, start: nat)
    ensures W.Sound(cash, W.OpenLedger(cash, start)) && W.Equity(W.OpenLedger(cash, start)) == cash
  {
  }

  /** The books of a run between two markets. */
  ghost predicate Accounted(l: W.Ledger, balance: int, markets: seq<Episode>, results: seq<EpisodeResult>)
    requires |results| <= |markets|
  {
    && W.Sound(balance, l) && W.Equity(l) == balance + NetSum(results)
    && Solvent(balance, results) && Spendable(l, balance, markets, results)
  }

  lemma AccountedFor(l: W.Ledger, balance: int, markets: seq<Episode>, results: seq<EpisodeResult>)
    requires |results| <= |markets| && Accounted(l, balance, markets, results)
    ensures W.Sound(balance, l) && W.Equity(l) == balance + NetSum(results)
    ensures Solvent(balance, results) && Spendable(l, balance, markets, results)
  {
  }

  lemma AccountedAtFirst(balance: nat, now: nat, markets: seq<Episode>)
    ensures Accounted(W.OpenLedger(balance, now), balance, markets, [])
  {
    hide W.Sound, W.Equity, Spendable, Solvent;
    OpenSound(balance, now);
    NoNet();
    NoneTraded(balance);
    SpendableAtFirst(balance, now, markets);
  }

  lemma AccountedAfter(l: W.Ledger, m: W.Ledger, balance: int, markets: seq<Episode>, results: seq<EpisodeResult>,
                       e: EpisodeResult)
    requires |results| < |markets| && Accounted(l, balance, markets, results) && W.Equity(l) > 0
    requires Adds(l, m, e, markets[|results|].tape.end, markets[|results|].resolution)
    requires W.Sound(balance, m) && W.Equity(m) == W.Equity(l) + e.net
    ensures Accounted(m, balance, markets, results + [e])
  {
    hide W.Sound, W.Equity, Spendable, Solvent, Adds;
    OneMoreNet(results, e);
    SolventAfter(balance, results, e);
    SpendableAfter(l, m, balance, markets, results, e);
  }

  lemma NoNet()
    ensures NetSum([]) == 0
  {
  }

  lemma OneMoreNet(results: seq<EpisodeResult>, e: EpisodeResult)
    ensures NetSum(results + [e]) == NetSum(results) + e.net
  {
  }

  lemma MarketOpened(v: Venue, p: Params, l: W.Ledger)
    requires v.realism.Valid() && p.Valid() && !AsksPast(p, v.tape, l.now)
    ensures EntriesFrom(EpisodeAfter(v, p, Some(PeekOf(l)), NO_IMPACT, v.tape.rows).run.orders, l.now)
  {
    hide EpisodeAfter, Opens;
    EpisodeOpened(v, p, Some(PeekOf(l)), NO_IMPACT, v.tape.rows, l.now);
  }

  lemma PeekDomain(p: Params, tape: EpisodeTape, l: W.Ledger)
    requires !AsksPast(p, tape, l.now)
    ensures Answers(p, tape, Some(PeekOf(l)))
  {
  }

  /** A row that may trigger an entry lies inside the market. */
  lemma OpensLater(p: Params, tape: EpisodeTape, now: int)
    requires AsksPast(p, tape, now)
    ensures tape.start < now
  {
  }
}
