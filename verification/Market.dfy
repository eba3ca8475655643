/** Order, ladder and fill records shared by both simulators. */
module Market {
  import opened FixedPoint
  import opened Fees

  datatype Side = Buy | Sell

  /** One resting level of a reconstructed book side. */
  datatype Level = Level(price: nat, size: nat)

  type Ladder = seq<Level>

  /** One consumed price level. */
  datatype Slice = Slice(price: nat, size: nat, notional: nat, fee: int, rank: nat)

  datatype Reason =
    | ParentDeadlineElapsed
    | MarketClosedAtArrival
    | InsufficientAvailableCash
    | NoBookAtArrival
    | BookStateUncertain
    | NonPositiveSize
    | EmptyBookSide
    | BelowMinimumOrderSize
    | StaleBook
    | NoExecutableLiquidity
    | InsufficientCashIncludingFees
    | PartialEntryDisallowed

  /** Result of one simulated marketable order. */
  datatype Outcome = Outcome(
    requested: int, filled: int, notional: int, fees: int,
    slices: seq<Slice>, rejected: Option<Reason>, decision: int, arrival: int)

  function Rejection(requested: int, reason: Reason, decision: int, arrival: int): Outcome
  {
    Outcome(requested, 0, 0, 0, [], Some(reason), decision, arrival)
  }

  function FillSlice(fee: FeeConfig, price: nat, size: nat, rank: nat): Slice
    requires fee.Valid()
  {
    Slice(price, size, Notional(size, price), Fee(fee, size, price), rank)
  }

  /** A slice carries the notional and the fee of its own size and price. */
  ghost predicate Priced(fee: FeeConfig, s: Slice)
    requires fee.Valid()
  {
    s.size > 0 && s == FillSlice(fee, s.price, s.size, s.rank)
  }

  ghost predicate AllPriced(fee: FeeConfig, slices: seq<Slice>)
    requires fee.Valid()
  {
    forall s <- slices :: Priced(fee, s)
  }

  /** Totals over a list of slices. */
  datatype Tally = Tally(size: int, notional: int, fee: int)

  function TallyOf(slices: seq<Slice>): Tally
  {
    if slices == [] then Tally(0, 0, 0)
    else
      var t, s := TallyOf(slices[..|slices| - 1]), slices[|slices| - 1];
      Tally(t.size + s.size, t.notional + s.notional, t.fee + s.fee)
  }

  lemma {:induction false} TallyConcat(a: seq<Slice>, b: seq<Slice>)
    ensures TallyOf(a + b) == Tally(
      TallyOf(a).size + TallyOf(b).size,
      TallyOf(a).notional + TallyOf(b).notional,
      TallyOf(a).fee + TallyOf(b).fee)
  {
    if b == [] {
      assert a + b == a;
    } else {
      assert (a + b)[..|a + b| - 1] == a + b[..|b| - 1];
      TallyConcat(a, b[..|b| - 1]);
    }
  }

  lemma {:induction false} TallyPositive(fee: FeeConfig, slices: seq<Slice>)
    requires fee.Valid() && AllPriced(fee, slices)
    ensures TallyOf(slices).size >= |slices|
    ensures TallyOf(slices).notional >= 0 && TallyOf(slices).fee >= 0
  {
    if slices != [] {
      assert Priced(fee, slices[|slices| - 1]);
      TallyPositive(fee, slices[..|slices| - 1]);
    }
  }

  /** The aggregate fields of an outcome are the sums over its slices, and an outcome without a
      fill has no slices and no cash effect. */
  ghost predicate Coherent(fee: FeeConfig, o: Outcome)
    requires fee.Valid()
  {
    && AllPriced(fee, o.slices)
    && TallyOf(o.slices) == Tally(o.filled, o.notional, o.fees)
    && o.filled >= 0 && o.notional >= 0 && o.fees >= 0
    && (o.filled == 0 ==> o.notional == 0 && o.fees == 0 && o.slices == [])
  }

  /** The taker of `side` prefers price `p` to price `q`. */
  predicate Better(side: Side, p: nat, q: nat) { if side.Buy? then p < q else p > q }

  /** A price the taker of `side` may not accept under `limit`. */
  predicate Beyond(side: Side, limit: Option<int>, price: int)
  {
    limit.Some? && if side.Buy? then price > limit.value else price < limit.value
  }

  /** Best level first, as the taker of `side` meets the ladder. */
  ghost predicate BestFirst(side: Side, ladder: Ladder)
  {
    forall i, j :: 0 <= i < j < |ladder| ==> Better(side, ladder[i].price, ladder[j].price)
  }

  ghost predicate Positive(ladder: Ladder)
  {
    forall l <- ladder :: l.price > 0 && l.size > 0
  }
}
