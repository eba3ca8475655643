/** What an order of the reference simulator trades: the available levels, best first and each emptied before the next, up
    to its size and its limit; all of it, or nothing when it cannot be paid for. */
module ExecutionRules {
  import opened FixedPoint
  import opened Fees
  import opened Market
  import opened Ladders
  import opened Books
  import opened Execution
  import P = Portfolios

  /** The fill at one level: priced there, no larger than the level, within the limit. */
  ghost predicate FillAt(fee: FeeConfig, intent: Intent, l: Level, s: Slice, rank: nat)
    requires fee.Valid()
  {
    && 0 < s.size <= l.size && s == FillSlice(fee, l.price, s.size, rank)
    && (intent.limit.Some? ==> if intent.side.Buy? then l.price <= intent.limit.value else l.price >= intent.limit.value)
  }

  /** `fills` empties the levels one after another, the last of them perhaps in part, and stops only when the size is met
      or no further level can be taken. */
  ghost predicate BestFirstFill(fee: FeeConfig, intent: Intent, levels: Ladder, shares: int, rank: nat, fills: seq<Slice>)
    requires fee.Valid()
  {
    var n, total := |fills|, TallyOf(fills).size;
    && n <= |levels|
    && (forall i :: 0 <= i < n ==> FillAt(fee, intent, levels[i], fills[i], rank + i))
    && (forall i :: 0 <= i < n - 1 ==> fills[i].size == levels[i].size)
    && 0 <= total <= Max(0, shares)
    && (total < shares ==>
          && (n > 0 ==> fills[n - 1].size == levels[n - 1].size)
          && (n < |levels| ==> Beyond(intent.side, intent.limit, levels[n].price) || levels[n].size == 0))
  }

  lemma {:induction false} PlanIsBestFirst(fee: FeeConfig, intent: Intent, levels: Ladder, shares: int, rank: nat)
    requires fee.Valid()
    ensures BestFirstFill(fee, intent, levels, shares, rank, Plan(fee, intent, levels, shares, rank))
  {
    hide FillSlice;
    if levels == [] || Beyond(intent.side, intent.limit, levels[0].price) || Min(shares, levels[0].size) <= 0 {
    } else {
      var take := Min(shares, levels[0].size);
      var rest := Plan(fee, intent, levels[1..], shares - take, rank + 1);
      PlanIsBestFirst(fee, intent, levels[1..], shares - take, rank + 1);
      FirstFill(fee, intent, levels, shares, rank, rest);
    }
  }

  lemma FirstFill(fee: FeeConfig, intent: Intent, levels: Ladder, shares: int, rank: nat, rest: seq<Slice>)
    requires fee.Valid() && levels != [] && !Beyond(intent.side, intent.limit, levels[0].price)
    requires Min(shares, levels[0].size) > 0
    requires BestFirstFill(fee, intent, levels[1..], shares - Min(shares, levels[0].size), rank + 1, rest)
    ensures BestFirstFill(fee, intent, levels, shares, rank,
      [FillSlice(fee, levels[0].price, Min(shares, levels[0].size), rank)] + rest)
  {
    hide FillSlice, FillAt, TallyOf, Beyond;
    var take := Min(shares, levels[0].size);
    var first := FillSlice(fee, levels[0].price, take, rank);
    HeadFill(fee, intent, levels[0], take, rank);
    HeadTally(first, rest);
    var all, tail := [first] + rest, levels[1..];
    forall i | 0 <= i < |all| ensures FillAt(fee, intent, levels[i], all[i], rank + i) {
      if i > 0 { assert FillAt(fee, intent, tail[i - 1], rest[i - 1], rank + 1 + (i - 1)); }
    }
    if rest != [] { RestNeedsMore(fee, intent, tail, shares - take, rank + 1, rest); }
    forall i | 0 <= i < |all| - 1 ensures all[i].size == levels[i].size {
      if i > 0 { assert rest[i - 1].size == tail[i - 1].size; }
    }
    if TallyOf(all).size < shares {
      assert |rest| > 0 ==> rest[|rest| - 1].size == tail[|rest| - 1].size;
      assert |rest| < |tail| ==> levels[|all|] == tail[|rest|];
    }
  }

  lemma HeadFill(fee: FeeConfig, intent: Intent, l: Level, take: nat, rank: nat)
    requires fee.Valid() && !Beyond(intent.side, intent.limit, l.price) && 0 < take <= l.size
    ensures FillSlice(fee, l.price, take, rank).size == take
    ensures FillAt(fee, intent, l, FillSlice(fee, l.price, take, rank), rank)
  {
  }

  lemma HeadTally(first: Slice, rest: seq<Slice>)
    ensures TallyOf([first] + rest).size == first.size + TallyOf(rest).size
  {
    TallyConcat([first], rest);
    assert [first][..0] == [];
  }

  /** A further fill means that more was wanted than the levels before it had. */
  lemma RestNeedsMore(fee: FeeConfig, intent: Intent, levels: Ladder, shares: int, rank: nat, fills: seq<Slice>)
    requires fee.Valid() && BestFirstFill(fee, intent, levels, shares, rank, fills) && fills != []
    ensures shares > 0
  {
    assert FillAt(fee, intent, levels[|fills| - 1], fills[|fills| - 1], rank + |fills| - 1);
    FillsSum(fee, intent, levels, rank, fills);
  }

  lemma {:induction false} FillsSum(fee: FeeConfig, intent: Intent, levels: Ladder, rank: nat, fills: seq<Slice>)
    requires fee.Valid() && |fills| <= |levels|
    requires forall i :: 0 <= i < |fills| ==> FillAt(fee, intent, levels[i], fills[i], rank + i)
    ensures TallyOf(fills).size >= |fills|
  {
    if fills != [] {
      var n := |fills| - 1;
      assert FillAt(fee, intent, levels[n], fills[n], rank + n);
      FillsSum(fee, intent, levels, rank, fills[..n]);
    }
  }

  /** Whether an account can pay for a plan. */
  ghost predicate CanPay(a: P.Account, intent: Intent, planned: seq<Slice>)
  {
    var t := TallyOf(planned);
    if intent.side.Buy? then t.notional + t.fee <= a.cash
    else t.size <= (if intent.token in a.positions then a.positions[intent.token].shares else 0)
  }

  /** The result of an order: its best-first fill when the book is valid and the account can pay for all of it, else
      nothing; filled when that meets the size, rejected when it is nothing, partial otherwise. */
  ghost predicate ExecuteRule(fee: FeeConfig, book: Book, a: P.Account, intent: Intent, result: OrderResult)
    requires fee.Valid()
  {
    exists planned: seq<Slice> ::
      && BestFirstFill(fee, intent, Available(book, intent.side), intent.shares, 1, planned)
      && result.fills == (if book.valid && CanPay(a, intent, planned) then planned else [])
      && (result.status.Rejected? <==> result.fills == [])
      && (result.status.Filled? <==> result.fills != [] && TallyOf(result.fills).size == intent.shares)
  }

  lemma ExecutedByRule(fee: FeeConfig, book: Book, a: P.Account, intent: Intent)
    requires fee.Valid()
    ensures var fills := Fills(fee, book, a, intent);
      ExecuteRule(fee, book, a, intent, OrderResult(StatusOf(intent, fills), fills))
  {
    hide Plan, Available, BestFirstFill;
    var planned := Plan(fee, intent, Available(book, intent.side), intent.shares, 1);
    PlanIsBestFirst(fee, intent, Available(book, intent.side), intent.shares, 1);
    assert BestFirstFill(fee, intent, Available(book, intent.side), intent.shares, 1, planned);
  }
}
