/** How many shares a budget buys, and how a fill is trimmed to a budget. */
module Affordability {
  import opened FixedPoint
  import opened Fees
  import opened Market

  /** Upper end of the search range when the caller gives none. */
  function SearchBound(spend: int, price: int): (high: nat)
    requires spend > 0 && price > 0
    ensures high == spend * SCALE / price + 1
  {
    DivGe(spend * SCALE, price, 0);
    spend * SCALE / price + 1
  }

  function Largest(fee: FeeConfig, spend: int, price: nat, high: nat): (n: nat)
    requires fee.Valid()
    ensures n <= high
    ensures spend >= 0 ==> Cost(fee, n, price) <= spend
    ensures forall s: nat :: n < s <= high ==> Cost(fee, s, price) > spend
  {
    FeeOfNothing(fee, price);
    if high == 0 || Cost(fee, high, price) <= spend then high
    else Largest(fee, spend, price, high - 1)
  }

  /** Largest size within the search range whose notional plus fee fits `spend`; nothing for an
      empty budget or a price that is not positive. */
  function MaxAffordable(fee: FeeConfig, spend: int, price: int, upper: Option<nat>): nat
    requires fee.Valid()
  {
    if spend <= 0 || price <= 0 then 0
    else Largest(fee, spend, price, if upper.Some? then upper.value else SearchBound(spend, price))
  }

  method MaxAffordableShares(fee: FeeConfig, spend: int, price: int, upper: Option<nat>) returns (low: nat)
    requires fee.Valid()
    ensures low == MaxAffordable(fee, spend, price, upper)
  {
    if spend <= 0 || price <= 0 {
      return 0;
    }
    var high := if upper.Some? then upper.value else SearchBound(spend, price);
    ghost var range := high;
    low := 0;
    FeeOfNothing(fee, price);
    while low < high
      invariant low <= high <= range
      invariant Cost(fee, low, price) <= spend
      invariant forall s: nat :: high < s <= range ==> Cost(fee, s, price) > spend
    {
      var middle := (low + high + 1) / 2;
      if Cost(fee, middle, price) <= spend {
        low := middle;
      } else {
        forall s: nat | middle <= s ensures Cost(fee, s, price) > spend {
          CostMonotone(fee, middle, s, price);
        }
        high := middle - 1;
      }
    }
    var n := Largest(fee, spend, price, range);
    if low < n { assert false; }
    if n < low { assert false; }
  }

  /** Under every schedule, the result is the largest affordable size of all exactly when the first size past
      the search range is not affordable. */
  lemma AffordableGloballyIff(fee: FeeConfig, spend: int, price: nat)
    requires fee.Valid() && spend > 0 && price > 0
    ensures (forall size: nat ::
               Cost(fee, size, price) <= spend ==> size <= MaxAffordable(fee, spend, price, None))
       <==> Cost(fee, SearchBound(spend, price) + 1, price) > spend
  {
    var h := SearchBound(spend, price);
    if Cost(fee, h + 1, price) > spend {
      forall size: nat | Cost(fee, size, price) <= spend
        ensures size <= MaxAffordable(fee, spend, price, None)
      {
        if size > h { CostMonotone(fee, h + 1, size, price); }
      }
    }
  }

  /** What the first size past the search range costs: its notional falls short of one unit above the budget
      by little, so half a unit of slack, or any fee on it, decides. */
  lemma RangeEnd(fee: FeeConfig, spend: int, price: nat)
    requires fee.Valid() && spend > 0 && price > 0
    ensures var h := SearchBound(spend, price);
      && Notional(h + 1, price) >= spend
      && (Cost(fee, h + 1, price) > spend
          <==> 2 * price - spend * SCALE % price >= SCALE / 2 || Fee(fee, h + 1, price) >= 1)
  {
    var a, h := spend * SCALE, SearchBound(spend, price);
    assert a == (a / price) * price + a % price;
    assert (h + 1) * price == (a / price) * price + 2 * price;
    NotionalAtMost(h + 1, price, spend);
    NotionalAtMost(h + 1, price, spend - 1);
  }

  /** When every positive size is charged at least one unit, no size at all beats the result. */
  lemma AffordableGlobally(fee: FeeConfig, spend: int, price: nat, size: nat)
    requires fee.Valid() && spend > 0 && price > 0 && AlwaysCharges(fee, price)
    ensures Cost(fee, size, price) <= spend <==> size <= MaxAffordable(fee, spend, price, None)
  {
    hide Cost, MaxAffordable, AlwaysCharges;
    RangeEnd(fee, spend, price);
    ChargedAtLeastOne(fee, SearchBound(spend, price) + 1, price);
    AffordableGloballyIff(fee, spend, price);
    ResultFits(fee, spend, price);
    if size <= MaxAffordable(fee, spend, price, None) {
      CostMonotone(fee, size, MaxAffordable(fee, spend, price, None), price);
    }
  }

  lemma ResultFits(fee: FeeConfig, spend: int, price: nat)
    requires fee.Valid() && spend > 0 && price > 0
    ensures Cost(fee, MaxAffordable(fee, spend, price, None), price) <= spend
  {
  }

  /** Free schedules leave the slack alone to decide. */
  lemma FreeAffordableGloballyIff(fee: FeeConfig, spend: int, price: nat)
    requires fee.Valid() && Free(fee) && spend > 0 && price > 0
    ensures (forall size: nat ::
               Cost(fee, size, price) <= spend ==> size <= MaxAffordable(fee, spend, price, None))
       <==> 2 * price - spend * SCALE % price >= SCALE / 2
  {
    hide MaxAffordable, Cost;
    AffordableGloballyIff(fee, spend, price);
    RangeEnd(fee, spend, price);
  }

  /** A schedule that never charges. */
  predicate Free(fee: FeeConfig) { fee.zeroFormula || fee.maker }

  /** Seven percent, rounded down, without a minimum: it charges, but not on dust. */
  const ROUNDED_DOWN: FeeConfig := FeeConfig(false, false, 7, 100, 1, 0, Floor)

  /** Failing inputs, with a free schedule and with one that rounds to nothing: one unit of collateral at a
      price of 0.1 buys 14 units, and the search stops at 11. */
  lemma SearchStopsShort(fee: FeeConfig)
    requires fee.Valid() && (Free(fee) || fee == ROUNDED_DOWN)
    ensures MaxAffordable(fee, 1, 100_000, None) <= 11
    ensures Cost(fee, 14, 100_000) <= 1
  {
    hide Largest;
    assert SearchBound(1, 100_000) == 11;
    if fee == ROUNDED_DOWN {
      assert Pow(100_000 * (SCALE - 100_000), 1) == 90_000_000_000 * Pow(90_000_000_000, 0);
      assert Pow(SCALE * SCALE, 1) == SCALE * SCALE * Pow(SCALE * SCALE, 0);
      DivBracket(14 * (7 * 90_000_000_000), 100 * (SCALE * SCALE), 0);
    }
  }

  // ---- trimming a fill to a budget ----------------------------------------------------------

  function Spent(slices: seq<Slice>): int { TallyOf(slices).notional + TallyOf(slices).fee }

  /** Number of leading slices the budget pays in full. */
  function CutAt(slices: seq<Slice>, budget: nat): (n: nat)
    ensures n <= |slices|
    ensures Spent(slices[..n]) <= budget
    ensures n < |slices| ==> Spent(slices[..n + 1]) > budget
  {
    if slices == [] then 0
    else
      var init := slices[..|slices| - 1];
      var n := CutAt(init, budget);
      assert init[..n] == slices[..n];
      assert n < |init| ==> init[..n + 1] == slices[..n + 1];
      assert slices[..|slices|] == slices;
      if n < |init| then n else if Spent(slices) <= budget then |slices| else |init|
  }

  /** Size of the first unpaid slice that the rest of the budget still buys. */
  function CutSize(fee: FeeConfig, slices: seq<Slice>, budget: nat): nat
    requires fee.Valid() && CutAt(slices, budget) < |slices|
  {
    var n := CutAt(slices, budget);
    MaxAffordable(fee, budget - Spent(slices[..n]), slices[n].price, Some(slices[n].size))
  }

  function Trim(fee: FeeConfig, slices: seq<Slice>, budget: nat): seq<Slice>
    requires fee.Valid()
  {
    var n := CutAt(slices, budget);
    if n == |slices| then slices
    else
      var size := CutSize(fee, slices, budget);
      slices[..n] + if size == 0 then [] else [FillSlice(fee, slices[n].price, size, slices[n].rank)]
  }

  predicate CashBound(slices: seq<Slice>, budget: nat) { CutAt(slices, budget) < |slices| }

  function CapOutcome(fee: FeeConfig, o: Outcome, spend: int): Outcome
    requires fee.Valid()
  {
    var kept := Trim(fee, o.slices, Max(0, spend));
    var t := TallyOf(kept);
    o.(slices := kept, filled := t.size, notional := t.notional, fees := t.fee,
       rejected := if t.size > 0 then o.rejected else Some(InsufficientCashIncludingFees))
  }

  /** Walking the fill from its first slice, a slice is paid in full exactly when it lies before the
      cut. */
  lemma {:induction false} CutStep(slices: seq<Slice>, budget: nat, i: nat)
    requires i <= CutAt(slices, budget) && i < |slices|
    ensures Spent(slices[..i + 1]) == Spent(slices[..i]) + slices[i].notional + slices[i].fee
    ensures i < CutAt(slices, budget) <==> Spent(slices[..i + 1]) <= budget
  {
    assert slices[..i + 1][..i] == slices[..i];
    var init := slices[..|slices| - 1];
    if i < CutAt(init, budget) {
      CutStep(init, budget, i);
      assert init[..i + 1] == slices[..i + 1];
    } else {
      assert slices[..|slices|] == slices;
    }
  }

  method CapBuyToSpend(fee: FeeConfig, o: Outcome, spend: int) returns (capped: Outcome, cashBound: bool)
    requires fee.Valid()
    ensures capped == CapOutcome(fee, o, spend)
    ensures cashBound == CashBound(o.slices, Max(0, spend))
  {
    hide FillSlice, CutAt, Cost, MaxAffordable;
    var remaining, kept, i := Max(0, spend), [], 0;
    cashBound := false;
    ghost var n := CutAt(o.slices, Max(0, spend));
    while i < |o.slices|
      invariant 0 <= i <= n && kept == o.slices[..i] && !cashBound
      invariant remaining == Max(0, spend) - Spent(o.slices[..i])
    {
      var item := o.slices[i];
      CutStep(o.slices, Max(0, spend), i);
      if item.notional + item.fee <= remaining {
        kept := kept + [item];
        remaining := remaining - (item.notional + item.fee);
        i := i + 1;
        continue;
      }
      var size := MaxAffordableShares(fee, remaining, item.price, Some(item.size));
      assert size == CutSize(fee, o.slices, Max(0, spend));
      if size > 0 {
        kept := kept + [FillSlice(fee, item.price, size, item.rank)];
      }
      cashBound := true;
      break;
    }
    assert kept == Trim(fee, o.slices, Max(0, spend)) by {
      if !cashBound { assert o.slices[..i] == o.slices; }
    }
    var t := TallyOf(kept);
    capped := o.(slices := kept, filled := t.size, notional := t.notional, fees := t.fee,
                 rejected := if t.size > 0 then o.rejected else Some(InsufficientCashIncludingFees));
  }

  /** The shortened slice is shorter than the one it replaces and fits what is left. */
  lemma CutFits(fee: FeeConfig, slices: seq<Slice>, budget: nat)
    requires fee.Valid() && AllPriced(fee, slices) && CashBound(slices, budget)
    ensures var n, size := CutAt(slices, budget), CutSize(fee, slices, budget);
      && size < slices[n].size
      && (size > 0 ==> Spent(slices[..n]) + Cost(fee, size, slices[n].price) <= budget)
  {
    var n := CutAt(slices, budget);
    CutStep(slices, budget, n);
    assert Priced(fee, slices[n]);
  }

  /** Shape of a trimmed fill: a prefix with at most one shortened last slice. */
  lemma TrimShape(fee: FeeConfig, slices: seq<Slice>, budget: nat)
    requires fee.Valid() && AllPriced(fee, slices)
    ensures var kept, n := Trim(fee, slices, budget), CutAt(slices, budget);
      && AllPriced(fee, kept)
      && n <= |kept| <= n + 1 && kept[..n] == slices[..n]
      && (|kept| == n + 1 ==>
            n < |slices| && kept[n].price == slices[n].price && kept[n].size < slices[n].size)
  {
    var n := CutAt(slices, budget);
    if n < |slices| { CutFits(fee, slices, budget); }
  }

  lemma TallySnoc(slices: seq<Slice>, s: Slice)
    ensures TallyOf(slices + [s]) == Tally(
      TallyOf(slices).size + s.size, TallyOf(slices).notional + s.notional, TallyOf(slices).fee + s.fee)
  {
  }

  /** Totals of a trimmed fill: it costs at most the budget, it is no larger than the fill it came
      from, and trimming happens exactly when that fill cost more than the budget. */
  lemma TrimTotals(fee: FeeConfig, slices: seq<Slice>, budget: nat)
    requires fee.Valid() && AllPriced(fee, slices)
    ensures Spent(Trim(fee, slices, budget)) <= budget
    ensures TallyOf(Trim(fee, slices, budget)).size <= TallyOf(slices).size
    ensures CashBound(slices, budget) <==> Spent(slices) > budget
  {
    var n := CutAt(slices, budget);
    if n == |slices| {
      assert slices[..n] == slices;
    } else {
      var size, item, before := CutSize(fee, slices, budget), slices[n], slices[..n];
      CutFits(fee, slices, budget);
      assert slices[..n + 1] == before + [item] && slices[..n + 1] + slices[n + 1..] == slices;
      TallySnoc(before, item);
      TallyConcat(slices[..n + 1], slices[n + 1..]);
      TallyPositive(fee, slices[n + 1..]);
      if size > 0 {
        TallySnoc(before, FillSlice(fee, item.price, size, item.rank));
      } else {
        assert Trim(fee, slices, budget) == before;
      }
    }
  }

  /** One more share unit at the cut level would exceed the budget exactly when money is left there or
      a single unit costs anything at all. */
  lemma TrimMaximalIff(fee: FeeConfig, slices: seq<Slice>, budget: nat)
    requires fee.Valid() && AllPriced(fee, slices) && CashBound(slices, budget)
    requires slices[CutAt(slices, budget)].price > 0
    ensures var n := CutAt(slices, budget);
      Spent(slices[..n]) + Cost(fee, CutSize(fee, slices, budget) + 1, slices[n].price) > budget
      <==> Spent(slices[..n]) < budget || Cost(fee, 1, slices[n].price) > 0
  {
    CutFits(fee, slices, budget);
  }

  /** The failing family is not empty: a free schedule, a first slice that costs exactly the budget, and a
      price of 0.4 after it. */
  lemma TrimCanStopShort(fee: FeeConfig, slices: seq<Slice>)
    requires fee.Valid() && Free(fee)
    requires slices == [FillSlice(fee, 300_000, 2, 1), FillSlice(fee, 400_000, 5_000_000, 2)]
    ensures AllPriced(fee, slices) && CashBound(slices, 1) && Trim(fee, slices, 1) == slices[..1]
    ensures Spent(slices[..1]) == 1 && Cost(fee, 1, 400_000) == 0
  {
    hide CutAt;
    assert slices[..1] == [] + [slices[0]] && slices == slices[..1] + [slices[1]] && slices[..2] == slices;
    TallySnoc([], slices[0]);
    TallySnoc(slices[..1], slices[1]);
    assert slices[0].notional == 1 && slices[1].notional == 2_000_000;
    assert Spent(slices[..1]) == 1;
    assert Spent(slices) == 1 + 2_000_000;
    TrimTotals(fee, slices, 1);
    CutStep(slices, 1, 0);
    CutStep(slices, 1, 1);
  }

  lemma CapCoherent(fee: FeeConfig, o: Outcome, spend: int)
    requires fee.Valid() && Coherent(fee, o)
    ensures var c := CapOutcome(fee, o, spend);
      && Coherent(fee, c)
      && c.filled <= o.filled && c.notional + c.fees <= Max(0, spend)
      && c.requested == o.requested && c.arrival == o.arrival && c.decision == o.decision
  {
    TrimShape(fee, o.slices, Max(0, spend));
    TrimTotals(fee, o.slices, Max(0, spend));
    TallyPositive(fee, Trim(fee, o.slices, Max(0, spend)));
    assert TallyOf([]) == Tally(0, 0, 0);
  }
}
