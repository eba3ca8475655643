/** Share-sized marketable orders of the reference simulator. */
module Execution {
  import opened FixedPoint
  import opened Fees
  import opened Market
  import opened Ladders
  import opened Books
  import P = Portfolios

  datatype Intent = Intent(
    token: nat, condition: int, side: Side, limit: Option<int>, shares: int, decision: int)

  datatype Status = Filled | Partial | Rejected

  datatype OrderResult = OrderResult(status: Status, fills: seq<Slice>)

  /** Best-first plan against the available levels, stopping at the limit or when the size is met. */
  function Plan(fee: FeeConfig, intent: Intent, levels: Ladder, shares: int, rank: nat): seq<Slice>
    requires fee.Valid()
  {
    if levels == [] || Beyond(intent.side, intent.limit, levels[0].price) then []
    else
      var desired := Min(shares, levels[0].size);
      if desired <= 0 then []
      else [FillSlice(fee, levels[0].price, desired, rank)]
           + Plan(fee, intent, levels[1..], shares - desired, rank + 1)
  }

  lemma PlanStep(fee: FeeConfig, intent: Intent, levels: Ladder, shares: int, i: nat)
    requires fee.Valid() && i <= |levels|
    ensures Plan(fee, intent, levels[i..], shares, i + 1) ==
      if i == |levels| || Beyond(intent.side, intent.limit, levels[i].price) || Min(shares, levels[i].size) <= 0 then []
      else [FillSlice(fee, levels[i].price, Min(shares, levels[i].size), i + 1)]
           + Plan(fee, intent, levels[i + 1..], shares - Min(shares, levels[i].size), i + 2)
  {
  }

  method PlanOrder(fee: FeeConfig, intent: Intent, levels: Ladder) returns (planned: seq<Slice>)
    requires fee.Valid()
    ensures planned == Plan(fee, intent, levels, intent.shares, 1)
  {
    hide FillSlice, Plan;
    planned := [];
    var remaining := intent.shares;
    var i := 0;
    while i < |levels|
      invariant 0 <= i <= |levels|
      invariant planned + Plan(fee, intent, levels[i..], remaining, i + 1)
             == Plan(fee, intent, levels, intent.shares, 1)
    {
      var price, displayed := levels[i].price, levels[i].size;
      PlanStep(fee, intent, levels, remaining, i);
      if Beyond(intent.side, intent.limit, price) {
        break;
      }
      var desired := Min(remaining, displayed);
      if desired <= 0 {
        break;
      }
      var slice := FillSlice(fee, price, desired, i + 1);
      ghost var later := Plan(fee, intent, levels[i + 1..], remaining - desired, i + 2);
      assert planned + ([slice] + later) == (planned + [slice]) + later;
      planned := planned + [slice];
      remaining := remaining - desired;
      i := i + 1;
      if remaining == 0 {
        break;
      }
    }
    PlanStep(fee, intent, levels, remaining, i);
  }

  /** The pre-check made before anything is changed. */
  predicate Affordable(account: P.Account, intent: Intent, planned: seq<Slice>)
  {
    if intent.side.Buy? then TallyOf(planned).notional + TallyOf(planned).fee <= account.cash
    else TallyOf(planned).size <= P.Inventory(account, intent.token)
  }

  /** Whether an order trades, and what it trades. */
  function Fills(fee: FeeConfig, book: Book, account: P.Account, intent: Intent): seq<Slice>
    requires fee.Valid()
  {
    var planned := Plan(fee, intent, Available(book, intent.side), intent.shares, 1);
    if book.valid && Affordable(account, intent, planned) then planned else []
  }

  function StatusOf(intent: Intent, fills: seq<Slice>): Status
  {
    if fills == [] then Rejected
    else if TallyOf(fills).size == intent.shares then Filled else Partial
  }

  /** Applies a plan fill by fill. A plan whose pre-check passed never raises part-way. */
  method ApplyPlan(intent: Intent, planned: seq<Slice>, book: OrderBook, portfolio: P.Portfolio)
    requires forall s <- planned :: s.fee >= 0
    requires Affordable(portfolio.State(), intent, planned)
    modifies book, portfolio
    ensures book.State() == Consumed(old(book.State()), intent.side, planned)
    ensures portfolio.State()
         == P.FilledAll(old(portfolio.State()), intent.condition, intent.token, intent.side, planned)
  {
    ghost var b0, a0 := book.State(), portfolio.State();
    for i := 0 to |planned|
      invariant book.State() == Consumed(b0, intent.side, planned[..i])
      invariant portfolio.State()
             == P.FilledAll(a0, intent.condition, intent.token, intent.side, planned[..i])
    {
      P.PrefixOfPlan(a0, intent.condition, intent.token, intent.side, planned, i);
      ConsumedOneMore(b0, intent.side, planned[..i], planned[i]);
      assert planned[..i] + [planned[i]] == planned[..i + 1] && planned[..i + 1][..i] == planned[..i];
      var raised := portfolio.ApplyFill(P.Fill(intent.condition, intent.token, intent.side, planned[i]));
      assert !raised;
      book.Consume(intent.side, planned[i]);
    }
    assert planned[..|planned|] == planned;
  }

  /** Executes one order: it is refused without any change, or its whole plan is applied. */
  method Execute(fee: FeeConfig, intent: Intent, book: OrderBook, portfolio: P.Portfolio)
    returns (result: OrderResult)
    requires fee.Valid()
    modifies book, portfolio
    ensures result.fills == Fills(fee, old(book.State()), old(portfolio.State()), intent)
    ensures result.status == StatusOf(intent, result.fills)
    ensures book.State() == Consumed(old(book.State()), intent.side, result.fills)
    ensures portfolio.State()
         == P.FilledAll(old(portfolio.State()), intent.condition, intent.token, intent.side, result.fills)
  {
    if !book.valid {
      return OrderResult(Rejected, []);
    }
    var levels := Available(book.State(), intent.side);
    var planned := PlanOrder(fee, intent, levels);
    if !Affordable(portfolio.State(), intent, planned) {
      return OrderResult(Rejected, []);
    }
    PlanCharged(fee, intent, levels, intent.shares, 1);
    ApplyPlan(intent, planned, book, portfolio);
    result := OrderResult(StatusOf(intent, planned), planned);
  }

  lemma ConsumedOneMore(b: Book, taker: Side, slices: seq<Slice>, s: Slice)
    ensures Consumed(Consumed(b, taker, slices), taker, [s]) == Consumed(b, taker, slices + [s])
  {
    assert (slices + [s])[..|slices|] == slices && [s][..|[s]| - 1] == [];
    assert forall t: BookSide :: TakeAll(t, [s]) == Take(TakeAll(t, []), s.price, s.size);
  }

  lemma {:induction false} PlanCharged(fee: FeeConfig, intent: Intent, levels: Ladder, shares: int, rank: nat)
    requires fee.Valid()
    ensures AllPriced(fee, Plan(fee, intent, levels, shares, rank))
  {
    if levels != [] && shares > 0 {
      PlanCharged(fee, intent, levels[1..], shares - Min(shares, levels[0].size), rank + 1);
    }
  }

  lemma TakesCons(levels: Ladder, head: Slice, rest: seq<Slice>)
    requires levels != [] && head.price == levels[0].price && head.size <= levels[0].size
    requires Takes(levels[1..], rest) && forall s <- rest :: s.price != head.price
    ensures Takes(levels, [head] + rest)
  {
  }

  /** A plan takes at most the available size of each level, at distinct prices. */
  lemma {:induction false} PlanTakes(
    fee: FeeConfig, intent: Intent, side: Side, levels: Ladder, shares: int, rank: nat)
    requires fee.Valid() && BestFirst(side, levels)
    ensures Takes(levels, Plan(fee, intent, levels, shares, rank))
  {
    hide FillSlice, Takes;
    if levels == [] || Beyond(intent.side, intent.limit, levels[0].price) || Min(shares, levels[0].size) <= 0 {
      TakesNothing(levels);
    } else {
      var desired, tail := Min(shares, levels[0].size), levels[1..];
      var rest := Plan(fee, intent, tail, shares - desired, rank + 1);
      PlanTakes(fee, intent, side, tail, shares - desired, rank + 1);
      TakesElsewhere(side, levels, rest);
      SliceOf(fee, levels[0].price, desired, rank);
      TakesCons(levels, FillSlice(fee, levels[0].price, desired, rank), rest);
    }
  }

  lemma TakesNothing(levels: Ladder)
    ensures Takes(levels, [])
  {
  }

  lemma SliceOf(fee: FeeConfig, price: nat, size: nat, rank: nat)
    requires fee.Valid()
    ensures FillSlice(fee, price, size, rank).price == price && FillSlice(fee, price, size, rank).size == size
  {
  }

  lemma TakesElsewhere(side: Side, levels: Ladder, rest: seq<Slice>)
    requires levels != [] && BestFirst(side, levels) && Takes(levels[1..], rest)
    ensures forall s <- rest :: s.price != levels[0].price
  {
    var tail := levels[1..];
    forall s | s in rest ensures s.price != levels[0].price {
      var l :| l in tail && l.price == s.price && s.size <= l.size;
      var j :| 0 <= j < |tail| && tail[j] == l;
      assert Better(side, levels[0].price, levels[j + 1].price);
    }
  }

  lemma FillsTake(fee: FeeConfig, book: Book, account: P.Account, intent: Intent)
    requires fee.Valid()
    ensures Takes(Available(book, intent.side), Fills(fee, book, account, intent))
  {
    if intent.side.Buy? {
      NetKeepsOrder(Buy, LadderOf(Buy, book.asks), book.takenAsks);
    } else {
      NetKeepsOrder(Sell, LadderOf(Sell, book.bids), book.takenBids);
    }
    PlanTakes(fee, intent, intent.side, Available(book, intent.side), intent.shares, 1);
  }

  /** Every executed order leaves the book sound: two simulated orders never take the same size. */
  lemma ExecutedBookSound(fee: FeeConfig, book: Book, account: P.Account, intent: Intent)
    requires fee.Valid() && Sound(book)
    ensures Sound(Consumed(book, intent.side, Fills(fee, book, account, intent)))
  {
    var fills := Fills(fee, book, account, intent);
    FillsTake(fee, book, account, intent);
    if intent.side.Buy? {
      TakingStaysCovered(Buy, book.asks, book.takenAsks, fills);
    } else {
      TakingStaysCovered(Sell, book.bids, book.takenBids, fills);
    }
  }
}
