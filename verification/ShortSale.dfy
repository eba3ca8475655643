/** When a compounded run stops because a sale costs more in fees than it brings in. */
module ShortSale {
  import opened FixedPoint
  import opened Fees
  import opened Market
  import opened Ladders
  import opened TakerWalk
  import opened Affordability
  import opened Reconstruction
  import opened Tapes
  import opened SelfImpact
  import opened Sending
  import opened Policies
  import opened Sessions
  import opened ParentDriver
  import opened Episodes
  import opened EpisodeShape
  import opened Compound
  import W = Wallets

  // ---- schedules that take no more than a sale brings in ------------------------------------

  /** At this price the fee of any size is at most its notional. */
  ghost predicate Mild(fee: FeeConfig, price: nat)
    requires fee.Valid()
  {
    forall size: nat :: Fee(fee, size, price) <= Notional(size, price)
  }

  /** Free schedules are mild at every price. So is, at prices up to one, any schedule with a curve, a rate of
      at most one and no minimum, unless it rounds up. */
  lemma MildWhen(fee: FeeConfig, price: nat)
    requires fee.Valid()
    requires Free(fee)
      || (fee.exponent >= 1 && fee.rateNum <= fee.rateDen && fee.minimum <= 0 && !fee.rounding.Ceiling? && price <= SCALE)
    ensures Mild(fee, price)
  {
    hide FeeFactor, FeeDenominator, Notional;
    forall size: nat ensures Fee(fee, size, price) <= Notional(size, price) {
      if !Free(fee) && size * FeeFactor(fee, price) > 0 { RawFeeMild(fee, size, price); }
    }
  }

  /** Rounding is monotone, and the fee before rounding is at most the notional before rounding. */
  lemma RawFeeMild(fee: FeeConfig, size: nat, price: nat)
    requires fee.Valid() && fee.exponent >= 1 && fee.rateNum <= fee.rateDen && !fee.rounding.Ceiling? && price <= SCALE
    ensures RoundTo(size * FeeFactor(fee, price), FeeDenominator(fee), fee.rounding) <= Notional(size, price)
  {
    var raw, d, value := size * FeeFactor(fee, price), FeeDenominator(fee), size * price;
    FactorMild(fee, price);
    MulLe(FeeFactor(fee, price) * SCALE, price * d, size);
    assert raw * SCALE <= value * d;
    DivAcross(raw, d, value, SCALE);
  }

  /** A smaller fraction rounds to no more, half up. */
  lemma DivAcross(a: int, d: int, b: int, e: int)
    requires d > 0 && e > 0 && a * e <= b * d
    ensures (2 * a + d) / (2 * d) <= (2 * b + e) / (2 * e) && a / d <= (2 * b + e) / (2 * e)
  {
    var q := (2 * a + d) / (2 * d);
    DivGe(2 * a + d, 2 * d, q);
    DivGe(2 * b + e, 2 * e, q);
    assert q * (2 * d) <= 2 * a + d;
    MulLe(q * (2 * d), 2 * a + d, e);
    assert (q * (2 * e)) * d <= (2 * b + e) * d;
    if q * (2 * e) > 2 * b + e { MulLe(2 * b + e + 1, q * (2 * e), d); }
    DivLe(2 * a, 2 * a + d, 2 * d);
    DivHalves(a, d);
  }

  lemma DivHalves(a: int, d: int)
    requires d > 0
    ensures (2 * a) / (2 * d) == a / d
  {
    var q := a / d;
    assert a == q * d + a % d;
    DivBracket(2 * a, 2 * d, q);
  }

  /** Per share, the curve charges at most the price. */
  lemma FactorMild(fee: FeeConfig, price: nat)
    requires fee.Valid() && fee.exponent >= 1 && fee.rateNum <= fee.rateDen && price <= SCALE
    ensures FeeFactor(fee, price) * SCALE <= price * FeeDenominator(fee)
  {
    hide Pow;
    CurveMild(price, fee.exponent);
    RateMild(fee.rateNum, fee.rateDen, Pow(price * (SCALE - price), fee.exponent), Pow(SCALE * SCALE, fee.exponent), price, SCALE);
  }

  /** A rate of at most one keeps a bound. */
  lemma RateMild(num: int, den: int, a: int, b: int, price: nat, scale: int)
    requires 0 <= a * scale <= price * b && num <= den && den > 0
    ensures (num * a) * scale <= price * (den * b)
  {
    var low, high := a * scale, price * b;
    MulLe(num, den, low);
    MulLe(low, high, den);
    assert (num * a) * scale == num * low && price * (den * b) == den * high;
  }

  lemma {:induction false} CurveMild(price: nat, e: nat)
    requires e >= 1 && price <= SCALE
    ensures 0 <= Pow(price * (SCALE - price), e) * SCALE <= price * Pow(SCALE * SCALE, e)
  {
    hide Pow;
    var x, y := price * (SCALE - price), SCALE * SCALE;
    PowUnfold(x, e);
    PowUnfold(y, e);
    BaseMild(price, SCALE);
    if e > 1 {
      CurveMild(price, e - 1);
      StepMild(x, y, Pow(x, e - 1), Pow(y, e - 1), price, SCALE);
    }
  }

  lemma PowUnfold(b: int, e: nat)
    requires e >= 1
    ensures Pow(b, e) == b * Pow(b, e - 1) && (e == 1 ==> Pow(b, e) == b)
  {
  }

  lemma BaseMild(price: nat, scale: int)
    requires price <= scale
    ensures 0 <= price * (scale - price) <= scale * scale
    ensures 0 <= price * (scale - price) * scale <= price * (scale * scale)
  {
    MulLe(0, price, scale - price);
    MulLe(scale - price, scale, price);
    MulLe(price, scale, scale);
    var x := price * (scale - price);
    MulLe(0, x, scale);
    MulLe(x, scale * price, scale);
    assert (scale * price) * scale == price * (scale * scale);
  }

  lemma StepMild(x: int, y: int, a: int, b: int, price: nat, scale: int)
    requires 0 <= x <= y && 0 <= a * scale <= price * b
    ensures 0 <= (x * a) * scale <= price * (y * b)
  {
    var low, high := a * scale, price * b;
    MulLe(0, x, low);
    MulLe(x, y, low);
    MulLe(low, high, y);
    assert (x * a) * scale == x * low && price * (y * b) == high * y;
  }

  /** Every bid the tape shows is at a mild price. */
  ghost predicate MildBids(fee: FeeConfig, tape: EpisodeTape)
    requires fee.Valid()
  {
    forall r <- tape.rows :: MildLadder(fee, r.bids)
  }

  ghost predicate MildLadder(fee: FeeConfig, ladder: Ladder)
    requires fee.Valid()
  {
    forall l <- ladder :: Mild(fee, l.price)
  }

  lemma {:induction false} NetMild(fee: FeeConfig, ladder: Ladder, taken: BookSide)
    requires fee.Valid() && MildLadder(fee, ladder)
    ensures MildLadder(fee, Net(ladder, taken))
  {
    hide Mild;
    if ladder != [] {
      assert ladder[0] in ladder;
      NetMild(fee, ladder[1..], taken);
    }
  }

  lemma {:induction false} GreedyMild(r: Realism, levels: Ladder, left: nat, rank: nat)
    requires r.Valid() && MildLadder(r.fee, levels)
    ensures forall s <- Greedy(r, levels, left, rank) :: Mild(r.fee, s.price)
  {
    hide Mild;
    if levels != [] {
      assert levels[0] in levels;
      GreedyMild(r, levels[1..], left - Min(Allowed(r, levels[0].size), left), rank + 1);
    }
  }

  lemma {:induction false} TalliedMild(fee: FeeConfig, slices: seq<Slice>)
    requires fee.Valid() && AllPriced(fee, slices) && forall s <- slices :: Mild(fee, s.price)
    ensures TallyOf(slices).fee <= TallyOf(slices).notional
  {
    hide Fee, Notional;
    if slices != [] {
      var s := slices[|slices| - 1];
      assert Priced(fee, s) && Mild(fee, s.price);
      TalliedMild(fee, slices[..|slices| - 1]);
    }
  }

  /** A sale against mild bids brings in at least its fees. */
  lemma SoldMild(r: Realism, o: Order, q: Request, ladder: Ladder)
    requires r.Valid() && MildLadder(r.fee, ladder) && o.side.Sell?
    ensures var out := Matched(r, o, q, ladder, None); out.fees <= out.notional
  {
    hide Mild, Greedy;
    WalkClosedForm(r, q, ladder);
    if Refusal(r, q, ladder).None? {
      assert MildLadder(r.fee, Eligible(r, q, ladder));
      GreedyMild(r, Eligible(r, q, ladder), Budget(r, q), 1);
      TalliedMild(r.fee, Walk(r, q, ladder).slices);
    }
  }

  lemma SentMild(v: Venue, s: Impact, o: Order)
    requires v.realism.Valid() && MildBids(v.realism.fee, v.tape) && o.side.Sell?
    ensures SentBy(v, s, o, None).0.fees <= SentBy(v, s, o, None).0.notional
  {
    hide Mild, MildLadder, Matched, RequestOf, TakenOn, IsUncertain, Reconciled, Noted, Net;
    var arrival := o.decision + v.latency(s.draws);
    if EarlyRefusal(v.tape, o, arrival, None).None? {
      var row := RowAt(v.tape.rows, o.token, arrival).value;
      assert v.tape.rows[row] in v.tape.rows;
      var current := Reconciled(s.record, s.cursor, v.tape.rows, o.token, row);
      var taken := TakenOn(current, o.token, Buy);
      NetMild(v.realism.fee, v.tape.rows[row].bids, taken);
      var ladder := Net(v.tape.rows[row].bids, taken);
      SoldMild(v.realism, o, RequestOf(v.tape, v.realism, o, arrival, row, ladder), ladder);
    }
  }

  ghost predicate NoneShort(orders: seq<SimulatedOrder>) { forall o <- orders :: !o.kind.Entry? ==> !SellShort(o) }

  lemma ExitMild(v: Venue, p: Params, r: Run, s: Impact, bid: Option<int>, token: Token, time: int)
    requires v.realism.Valid() && MildBids(v.realism.fee, v.tape) && NoneShort(r.orders)
    ensures NoneShort(ExitStep(v, p, r, s, bid, token, time).0.orders)
  {
    hide SentBy, ReasonOf, MildBids;
    var choice := ChooseExit(p, v.tape, r, bid, time);
    if choice.Some? { SentMild(v, s, Order(Sell, token, time, choice.value.1, None, false, None, None)); }
  }

  lemma RowMild(v: Venue, p: Params, cash: CashSource, e: EpisodeState, row: Row)
    requires v.realism.Valid() && p.Valid() && MildBids(v.realism.fee, v.tape) && NoneShort(e.run.orders)
    requires e.status.Going? ==> (e.run.entered <==> e.run.shares > 0)
    ensures NoneShort(RowStep(v, p, cash, e, row).run.orders)
    ensures var after := RowStep(v, p, cash, e, row); after.status.Going? ==> (after.run.entered <==> after.run.shares > 0)
  {
    hide ExitStep, ImmediateStep, SequentialStep, MildBids, ParentAfter, OffsetsOf, CashPending;
    var r := e.run;
    if e.status.Going? && row.time <= v.tape.end {
      if r.shares > 0 && row.token == r.token && row.time >= r.effective {
        var bid: Option<int> := if row.bids == [] then None else Some(row.bids[0].price);
        ExitMild(v, p, r, e.impact, bid, row.token, row.time);
        ExitShape(v, p, r, e.impact, bid, row.token, row.time);
      } else if r.shares <= 0 && Triggers(p, r, row) && row.time <= v.tape.start + p.entryTo {
        if p.entry.Immediate? {
          EntryShape(v, p, r, e.impact, row, cash);
        } else if row.time < DeadlineOf(v, p, row.time) && SequentialStep(v, p, r, e.impact, row, cash).Some? {
          ParentEntryShape(v, p, r, e.impact, row, cash);
        }
      }
    }
  }

  lemma {:induction false} EpisodeMild(v: Venue, p: Params, cash: CashSource, s: Impact, rows: seq<Row>)
    requires v.realism.Valid() && p.Valid() && MildBids(v.realism.fee, v.tape)
    ensures NoneShort(EpisodeAfter(v, p, cash, s, rows).run.orders)
    ensures var e := EpisodeAfter(v, p, cash, s, rows); e.status.Going? ==> (e.run.entered <==> e.run.shares > 0)
  {
    hide RowStep, MildBids;
    if rows != [] {
      EpisodeMild(v, p, cash, s, rows[..|rows| - 1]);
      RowMild(v, p, cash, EpisodeAfter(v, p, cash, s, rows[..|rows| - 1]), rows[|rows| - 1]);
    }
  }

  lemma {:induction false} SellsWithin(orders: seq<SimulatedOrder>)
    ensures forall o <- Sells(orders) :: o in orders && !o.kind.Entry?
  {
    if orders != [] { SellsWithin(orders[..|orders| - 1]); }
  }

  lemma {:induction false} FilledWithin(orders: seq<SimulatedOrder>)
    ensures forall o <- FilledOnly(orders) :: o in orders
  {
    if orders != [] { FilledWithin(orders[..|orders| - 1]); }
  }

  lemma AppliedSells(orders: seq<SimulatedOrder>)
    ensures forall o <- Sells(ByArrival(FilledOnly(orders))) :: o in orders && !o.kind.Entry?
  {
    FilledWithin(orders);
    OrderedMembers(FilledOnly(orders));
    SellsWithin(ByArrival(FilledOnly(orders)));
  }

  /** Where every bid on display is at a mild price, no market list ever stops on a short sale. */
  lemma {:induction false} MildNeverShort(p: Params, realism: Realism, opening: W.Ledger, markets: seq<Compound.Episode>)
    requires realism.Valid() && p.Valid() && p.orderNotional.Some?
    requires forall m <- markets :: MildBids(realism.fee, m.tape)
    ensures MarketsAfter(p, realism, opening, markets).halt != Some(ShortSale)
  {
    hide EpisodeAfter, DebitBuys, WithCredits, Buys, ByArrival, FilledOnly, PeekOf, Sells, MildBids;
    if markets != [] {
      var init, m := markets[..|markets| - 1], markets[|markets| - 1];
      assert m in markets && forall x <- init :: x in markets;
      MildNeverShort(p, realism, opening, init);
      var st := MarketsAfter(p, realism, opening, init);
      if st.halt.None? && W.Equity(st.ledger) > 0 {
        var v := Venue(m.tape, realism, m.latency);
        EpisodeMild(v, Budgeted(p, st.ledger), Some(PeekOf(st.ledger)), NO_IMPACT, m.tape.rows);
        AppliedSells(EpisodeAfter(v, Budgeted(p, st.ledger), Some(PeekOf(st.ledger)), NO_IMPACT, m.tape.rows).run.orders);
      }
    }
  }

  // ---- a list on which one stops the run ----------------------------------------------------

  function DustRow(time: int): Row { Row(time, 0, TickRow, true, [Level(5_000, 1)], [Level(10_000, 1)]) }

  /** One market that shows a single share unit on either side, under the shipped fee schedule. The unit is
      bought at a cent and stopped out at half a cent. */
  ghost predicate Scene(p: Params, realism: Realism, opening: W.Ledger, m: Compound.Episode)
  {
    && m.tape == EpisodeTape([DustRow(0), DustRow(10)], [], [], 0, 100, 0, 1) && m.winner.None?
    && m.latency(0) == 0 && m.latency(1) == 0
    && realism == Realism(0, PPM, None, None, None, false, None, None, DEFAULT_FEE)
    && opening == W.OpenLedger(1_000, 0)
    && p == Params(0, 50, 10_000, 10_000, {0}, None, Some(1_000), true, 2, 0, Immediate, 0,
                   Some(6_000), None, PPM, None, PPM, 0, 0, None)
  }

  lemma DustFee(price: int)
    requires price == 5_000 || price == 10_000
    ensures DEFAULT_FEE.Valid() && Fee(DEFAULT_FEE, 1, price) == 1 && Notional(1, price) == 0
  {
    DefaultAlwaysCharges(price);
    ChargedAtLeastOne(DEFAULT_FEE, 1, price);
    var d := FeeDenominator(DEFAULT_FEE);
    assert Pow(SCALE * SCALE, 1) == SCALE * SCALE * Pow(SCALE * SCALE, 0);
    assert Pow(price * (SCALE - price), 1) == price * (SCALE - price) * Pow(price * (SCALE - price), 0);
    DivBracket(2 * FeeFactor(DEFAULT_FEE, price) + d, 2 * d, 0);
  }

  /** An order that meets a single unit within its limit takes it. */
  lemma UnitTaken(r: Realism, o: Order, q: Request, ladder: Ladder, price: nat, cash: Option<int>)
    requires r.Valid() && r == Realism(0, PPM, None, None, None, false, None, None, DEFAULT_FEE)
    requires (price == 5_000 || price == 10_000) && ladder == [Level(price, 1)]
    requires q.size >= 1 && q.side == o.side && q.limit == o.limit && (o.limit.None? || o.limit.value == price)
    requires q.realisedVolume.None? && q.minimum == 0 && !o.requireFull
    requires SpendCap(o, cash).Some? ==> SpendCap(o, cash).value >= 1
    ensures var out := Matched(r, o, q, ladder, cash); out.filled == 1 && out.notional == 0 && out.fees == 1
  {
    hide CutAt, CutSize, Notional, Fee;
    DustFee(price);
    assert Eligible(r, q, ladder) == ladder && ladder[1..] == [];
    GreedyNothing(r, [], 2);
    var slice := FillSlice(r.fee, price, 1, 1);
    assert Greedy(r, ladder, q.size, 1) == [slice];
    assert [slice][..0] == [] && TallyOf([slice]) == Tally(1, 0, 1);
    if SpendCap(o, cash).Some? {
      TrimTotals(r.fee, [slice], SpendCap(o, cash).value);
      assert Trim(r.fee, [slice], SpendCap(o, cash).value) == [slice];
    }
  }

  /** No consumption is recorded on the bids. */
  ghost predicate BidsUntouched(record: Record) { forall k <- record :: k.side == Sell }

  lemma {:induction false} ReplayedBids(record: Record, rows: seq<Row>, t: Token, lo: nat, hi: nat)
    requires BidsUntouched(record) && hi <= |rows|
    ensures BidsUntouched(Replayed(record, rows, t, lo, hi))
  {
    if lo < hi { ReplayedBids(record, rows, t, lo, hi - 1); }
  }

  lemma {:induction false} NotedBids(record: Record, t: Token, slices: seq<Slice>)
    requires BidsUntouched(record)
    ensures BidsUntouched(Noted(record, t, Sell, slices))
  {
    if slices != [] { NotedBids(record, t, slices[..|slices| - 1]); }
  }

  lemma OneAffordable(fee: FeeConfig, spend: int, price: nat)
    requires fee == DEFAULT_FEE && price == 10_000 && spend == 1_000
    ensures fee.Valid() && MaxAffordable(fee, spend, price, None) >= 1
  {
    hide MaxAffordable, Notional, Fee, FeeFactor;
    DefaultAlwaysCharges(price);
    DustFee(price);
    assert Cost(fee, 1, price) <= spend;
    AffordableGlobally(fee, spend, price, 1);
  }

  /** The budget buys at least the one unit on offer. */
  lemma UnitAffordable(v: Venue, o: Order, ladder: Ladder, spend: int)
    requires v.realism.fee == DEFAULT_FEE && v.realism.Valid() && ladder == [Level(10_000, 1)] && |v.tape.rows| > 0
    requires o.side.Buy? && o.maxSpend == Some(spend) && spend == 1_000
    ensures RequestOf(v.tape, v.realism, o, 0, 0, ladder).size >= 1
  {
    hide MaxAffordable;
    OneAffordable(v.realism.fee, spend, ladder[0].price);
  }

  lemma BuyMatched(v: Venue, o: Order, ladder: Ladder)
    requires v.realism == Realism(0, PPM, None, None, None, false, None, None, DEFAULT_FEE) && v.realism.Valid()
    requires ladder == [Level(10_000, 1)] && |v.tape.rows| > 0 && v.tape.minimum == 0
    requires o.side.Buy? && o.maxSpend == Some(1_000) && o.limit == Some(10_000) && !o.requireFull
    ensures Matched(v.realism, o, RequestOf(v.tape, v.realism, o, 0, 0, ladder), ladder, Some(1_000)).filled == 1
  {
    hide Matched, MaxAffordable;
    UnitAffordable(v, o, ladder, 1_000);
    UnitTaken(v.realism, o, RequestOf(v.tape, v.realism, o, 0, 0, ladder), ladder, 10_000, Some(1_000));
  }

  lemma BuySent(v: Venue, s: Impact, o: Order, cash: CashSource)
    requires v.realism == Realism(0, PPM, None, None, None, false, None, None, DEFAULT_FEE) && v.realism.Valid()
    requires v.tape == EpisodeTape([DustRow(0), DustRow(10)], [], [], 0, 100, 0, 1) && s == NO_IMPACT && v.latency(0) == 0
    requires o.side.Buy? && o.token == 0 && o.decision == 0 && o.maxSpend == Some(1_000) && o.limit == Some(10_000)
    requires !o.requireFull && o.deadline.None? && CashAt(cash, 0) == Some(1_000)
    ensures var (outcome, after) := SentBy(v, s, o, cash); outcome.filled == 1 && BidsUntouched(after.record)
  {
    hide Matched, Noted, Replayed, RequestOf, RowAt, Net, TakenOn, BidsUntouched;
    assert v.tape.rows[0] == DustRow(0);
    FirstRowMet(v.tape.rows);
    NothingYet(v.tape.rows);
    var ladder := [Level(10_000, 1)];
    BuyMatched(v, o, ladder);
    NothingRecorded();
    ReplayedBids(map[], v.tape.rows, 0, 0, 1);
    NotedBids(Replayed(map[], v.tape.rows, 0, 0, 1), 0,
      Matched(v.realism, o, RequestOf(v.tape, v.realism, o, 0, 0, ladder), ladder, Some(1_000)).slices);
  }

  lemma NothingRecorded()
    ensures BidsUntouched(map[])
  {
  }

  lemma FirstRowMet(rows: seq<Row>)
    requires rows == [DustRow(0), DustRow(10)]
    ensures RowAt(rows, 0, 0) == Some(0) && RowAt(rows, 0, 10) == Some(1)
  {
    assert rows[..1] == [DustRow(0)];
  }

  lemma NothingYet(rows: seq<Row>)
    requires |rows| > 0
    ensures Net([Level(10_000, 1)], TakenOn(Reconciled(map[], map[], rows, 0, 0), 0, Sell)) == [Level(10_000, 1)]
  {
    NothingTaken(rows, 0, [Level(10_000, 1)]);
  }

  lemma BidsOnOffer(record: Record)
    requires BidsUntouched(record)
    ensures Net([Level(5_000, 1)], TakenOn(record, 0, Buy)) == [Level(5_000, 1)]
  {
    assert TakenOn(record, 0, Buy) == map[];
    NetOfNothing([Level(5_000, 1)], map[]);
  }

  lemma SellSent(v: Venue, s: Impact, o: Order)
    requires v.realism == Realism(0, PPM, None, None, None, false, None, None, DEFAULT_FEE) && v.realism.Valid()
    requires v.tape == EpisodeTape([DustRow(0), DustRow(10)], [], [], 0, 100, 0, 1) && v.latency(s.draws) == 0
    requires BidsUntouched(s.record) && o == Order(Sell, 0, 10, 1, None, false, None, None)
    ensures var out := SentBy(v, s, o, None).0; out.filled == 1 && out.notional == 0 && out.fees == 1
  {
    hide Matched, Noted, Replayed, RowAt, TakenOn;
    FirstRowMet(v.tape.rows);
    assert v.tape.rows[1] == DustRow(10);
    var record := Reconciled(s.record, s.cursor, v.tape.rows, 0, 1);
    ReplayedBids(s.record, v.tape.rows, 0, if 0 in s.cursor then s.cursor[0] + 1 else 0, 2);
    BidsOnOffer(record);
    var ladder := [Level(5_000, 1)];
    UnitTaken(v.realism, o, RequestOf(v.tape, v.realism, o, 10, 1, ladder), ladder, 5_000, None);
  }

  lemma WalletHolds(p: Params, l: W.Ledger, debited: int, time: int)
    requires l == W.OpenLedger(1_000, 0) && time >= 0 && debited == 0 && p.orderNotional == Some(1_000)
    ensures CashAt(RunCash(p, Some(PeekOf(l)), debited), time) == Some(1_000)
    ensures SpendOf(p, Some(PeekOf(l)), debited, time) == (Some(1_000), false)
  {
    var source := PeekOf(l);
    assert source.requires(time) && source(time) == W.Peek(l, time) == 1_000;
    var run := RunCash(p, Some(source), debited);
    assert run.value.requires(time) && run.value(time) == Max(0, Max(0, source(time)) - debited);
  }

  /** The first row buys the unit. */
  lemma BuysUnit(v: Venue, p: Params, l: W.Ledger, r: Run, s: Impact, row: Row)
    requires v.realism == Realism(0, PPM, None, None, None, false, None, None, DEFAULT_FEE) && v.realism.Valid() && p.Valid()
    requires v.tape == EpisodeTape([DustRow(0), DustRow(10)], [], [], 0, 100, 0, 1) && s == NO_IMPACT && v.latency(0) == 0
    requires l == W.OpenLedger(1_000, 0) && r == StartOf(p, v.tape) && row == DustRow(0)
    requires p.orderNotional == Some(1_000) && p.orderShares.None? && p.allowPartial && p.limit == 10_000 && p.maxEntries == 2
    ensures var (after, s') := ImmediateStep(v, p, r, s, row, Some(PeekOf(l)));
      && |after.orders| == 1 && after.shares == 1 && after.token == 0 && after.effective == 0 && after.entered
      && !after.stopActive && !after.flattenTried && s'.draws == 1 && BidsUntouched(s'.record)
  {
    hide SentBy, RunCash, SpendOf, PeekOf, EntrySize, BidsUntouched, ImmediateStep;
    WalletHolds(p, l, r.debited, 0);
    EntryShape(v, p, r, s, row, Some(PeekOf(l)));
    var o := Order(Buy, 0, 0, EntrySize(p, row.asks[0].price), Some(1_000), false, Some(10_000), None);
    BuySent(v, s, o, RunCash(p, Some(PeekOf(l)), r.debited));
    assert EntrySent(v, p, r, s, row, Some(PeekOf(l))) == SentBy(v, s, o, RunCash(p, Some(PeekOf(l)), r.debited));
  }

  /** The second row stops it out, for less than the fee. */
  lemma StopsShort(v: Venue, p: Params, r: Run, s: Impact)
    requires v.realism == Realism(0, PPM, None, None, None, false, None, None, DEFAULT_FEE) && v.realism.Valid()
    requires v.tape == EpisodeTape([DustRow(0), DustRow(10)], [], [], 0, 100, 0, 1)
    requires s.draws == 1 && v.latency(1) == 0 && BidsUntouched(s.record)
    requires r.shares == 1 && !r.stopActive && !r.flattenTried
    requires p.stop == Some(6_000) && p.stopFrom.None? && p.stopFractionPpm == PPM && p.flattenBefore.None?
    ensures var (after, _) := ExitStep(v, p, r, s, Some(5_000), 0, 10);
      |after.orders| == |r.orders| + 1 &&
      var o := after.orders[|r.orders|]; o.filled == 1 && !o.kind.Entry? && SellShort(o)
  {
    hide SentBy, BidsUntouched;
    assert ChooseExit(p, v.tape, r, Some(5_000), 10) == Some((StopLoss, 1));
    SellSent(v, s, Order(Sell, 0, 10, 1, None, false, None, None));
  }

  lemma BuyRow(v: Venue, p: Params, cash: CashSource, e: EpisodeState, row: Row)
    requires v.realism.Valid() && p.Valid() && e.status.Going? && e.run == StartOf(p, v.tape) && row == DustRow(0)
    requires v.tape.start == 0 && v.tape.end == 100 && p.entry.Immediate? && p.entryTo == 50 && p.entryFrom == 0
    requires p.allowed == {0} && p.trigger == 10_000 == p.limit && p.maxEntries == 2
    ensures row.asks != []
    ensures var (after, s) := ImmediateStep(v, p, e.run, e.impact, row, cash);
      RowStep(v, p, cash, e, row) == EpisodeState(after, s, Going)
  {
    hide ImmediateStep, SequentialStep, ExitStep;
  }

  lemma StopRow(v: Venue, p: Params, cash: CashSource, e: EpisodeState, row: Row)
    requires v.realism.Valid() && p.Valid() && e.status.Going? && row == DustRow(10) && v.tape.end == 100
    requires e.run.shares == 1 && e.run.token == 0 && e.run.effective == 0
    ensures RowStep(v, p, cash, e, row).run == ExitStep(v, p, e.run, e.impact, Some(5_000), 0, 10).0
    ensures !RowStep(v, p, cash, e, row).status.Rejected?
  {
    hide ImmediateStep, SequentialStep, ExitStep;
  }

  lemma RunGoesShort(v: Venue, p: Params, l: W.Ledger, s: Impact)
    requires v.realism == Realism(0, PPM, None, None, None, false, None, None, DEFAULT_FEE) && v.realism.Valid() && p.Valid()
    requires v.tape == EpisodeTape([DustRow(0), DustRow(10)], [], [], 0, 100, 0, 1) && s == NO_IMPACT
    requires v.latency(0) == 0 && v.latency(1) == 0 && l == W.OpenLedger(1_000, 0)
    requires p == Params(0, 50, 10_000, 10_000, {0}, None, Some(1_000), true, 2, 0, Immediate, 0,
                         Some(6_000), None, PPM, None, PPM, 0, 0, None)
    ensures var e := EpisodeAfter(v, p, Some(PeekOf(l)), s, v.tape.rows);
      && !e.status.Rejected? && e.run.entered
      && exists o <- e.run.orders :: o.filled != 0 && !o.kind.Entry? && SellShort(o)
  {
    hide EpisodeAfter, RowStep, ImmediateStep, ExitStep, PeekOf, StartOf, BidsUntouched, SellShort;
    var rows, cash, r := v.tape.rows, Some(PeekOf(l)), StartOf(p, v.tape);
    NoRows(v, p, cash, s, rows);
    RowOneMore(v, p, cash, s, rows, 0);
    BuyRow(v, p, cash, EpisodeState(r, s, Going), rows[0]);
    BuysUnit(v, p, l, r, s, rows[0]);
    var (after, s') := ImmediateStep(v, p, r, s, rows[0], cash);
    RowOneMore(v, p, cash, s, rows, 1);
    StopRow(v, p, cash, EpisodeState(after, s', Going), rows[1]);
    StopsShort(v, p, after, s');
    ExitShape(v, p, after, s', Some(5_000), 0, 10);
    assert rows[..2] == rows;
    var orders := EpisodeAfter(v, p, cash, s, rows).run.orders;
    assert orders[1] in orders;
  }

  lemma {:induction false} SellsHas(orders: seq<SimulatedOrder>, o: SimulatedOrder)
    requires o in orders && !o.kind.Entry?
    ensures o in Sells(orders)
  {
    if o != orders[|orders| - 1] { SellsHas(orders[..|orders| - 1], o); }
  }

  lemma {:induction false} FilledHas(orders: seq<SimulatedOrder>, o: SimulatedOrder)
    requires o in orders && o.filled != 0
    ensures o in FilledOnly(orders)
  {
    if o != orders[|orders| - 1] { FilledHas(orders[..|orders| - 1], o); }
  }

  /** A market list on which the compounded run stops on a short sale. */
  lemma RunStopsShort(p: Params, realism: Realism, opening: W.Ledger, m: Compound.Episode)
    requires Scene(p, realism, opening, m)
    ensures p.Valid() && realism.Valid() && MarketsAfter(p, realism, opening, [m]).halt == Some(ShortSale)
  {
    hide EpisodeAfter, ByArrival, FilledOnly, Sells, PeekOf, Finish, DebitBuys, WithCredits, SellShort;
    var v := Venue(m.tape, realism, m.latency);
    assert Budgeted(p, opening) == p;
    RunGoesShort(v, p, opening, NO_IMPACT);
    var e := EpisodeAfter(v, p, Some(PeekOf(opening)), NO_IMPACT, m.tape.rows);
    var o :| o in e.run.orders && o.filled != 0 && !o.kind.Entry? && SellShort(o);
    FinishKeepsOrders(e.run, m.winner);
    FilledHas(e.run.orders, o);
    OrderedMembers(FilledOnly(e.run.orders));
    SellsHas(ByArrival(FilledOnly(e.run.orders)), o);
    assert AnySaleShort(Finish(e.run, m.winner));
    NoMarkets(p, realism, opening, [m]);
    MarketOneMore(p, realism, opening, [m], 0);
    assert [m][..1] == [m];
  }

  lemma FinishKeepsOrders(r: Run, winner: Option<Token>)
    ensures Finish(r, winner).orders == r.orders
  {
  }
}
