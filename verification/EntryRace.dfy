/** Where entries do not arrive in turn: for every such pair of latencies a market on which an exit overtakes a
    refused entry, and one on which a run knows the future. With it the conditions are exact. */
module EntryRace {
  import opened FixedPoint
  import opened Fees
  import opened Market
  import opened Ladders
  import opened TakerWalk
  import opened Affordability
  import opened Reconstruction
  import opened Tapes
  import opened SelfImpact
  import opened Sending
  import opened Policies
  import opened Sessions
  import opened ParentDriver
  import opened Episodes
  import opened EpisodeShape
  import opened Pacing
  import opened ExitOverlap
  import opened TapeForesight

  // ---- the market ---------------------------------------------------------------------------

  /** Ten shares on either side. */
  function Showing(time: int, valid: bool): Row
  {
    Row(time, 0, SnapshotRow, valid, [Level(400_000, 10)], [Level(500_000, 10)])
  }

  /** The race is between order `n` and the next one, decided `gap` later. The orders before them are spaced
      out and all meet a book that is not trusted. The last row comes at `next`. A scarce wallet holds less
      than an order asks for. */
  datatype Race = Race(latency: nat -> nat, n: nat, gap: nat, spacing: nat, next: int, scarce: bool)
  {
    function Begin(): int { n * spacing }

    function Arrival(): int { Begin() + latency(n) }

    ghost predicate Valid()
    {
      && (forall i: nat :: i < n ==> latency(i) < spacing) && gap <= spacing
      && Begin() + gap <= next < Arrival()
    }

    function Waiting(): seq<Row> { seq(n, i => Showing(i * spacing, false)) }

    function Rows(): seq<Row> { Waiting() + [Showing(Begin(), true), Showing(Begin() + gap, true), Showing(next, true)] }

    /** With `closing`, the book is no longer trusted once order `n` arrives. */
    function Tape(closing: bool): EpisodeTape
    {
      EpisodeTape(Rows() + if closing then [Showing(Arrival(), false)] else [], [], [], 0, Arrival() + 1, 0, 10_000)
    }

    function At(closing: bool): Venue { Venue(Tape(closing), TRUSTING, latency) }

    function Strategy(cooldown: nat, maxEntries: int): Params
      requires Begin() + gap >= 0
    {
      Params(0, Begin() + gap, 500_000, 500_000, {0}, None, Some(10), true, maxEntries, cooldown, Immediate, 0,
             Some(450_000), None, PPM, None, PPM, 0, 0, None)
    }

    function Purse(): int { if scarce then 4 else 10 }

    function Wallet(): CashSource { if scarce then Some((t: int) => 4) else None }

    /** The next order may be sent, and sent this early: with ample cash after a cooldown, with scarce cash
        without one. */
    ghost predicate Runs(cooldown: nat, maxEntries: int)
    {
      Valid() && if scarce then gap == 0 && maxEntries >= 1 else gap == cooldown && n + 1 < maxEntries
    }
  }

  /** Nothing restrains a fill but an untrusted book, and there is no fee. */
  const TRUSTING: Realism := Realism(0, PPM, None, None, None, true, None, None, FeeConfig(true, false, 0, 1, 0, 0, HalfUp))

  lemma Spaced(i: nat, j: nat, spacing: nat)
    requires i < j
    ensures i * spacing + spacing <= j * spacing && 0 <= i * spacing
  {
    MulLe(i + 1, j, spacing);
  }

  lemma RowIs(rows: seq<Row>, at: int, i: nat)
    requires i < |rows| && rows[i].token == 0 && rows[i].time <= at && forall j :: i < j < |rows| ==> rows[j].time > at
    ensures RowAt(rows, 0, at) == Some(i)
  {
  }

  lemma RowsOf(c: Race, closing: bool)
    requires c.Valid()
    ensures var rows := c.Tape(closing).rows;
      && |rows| == c.n + 3 + (if closing then 1 else 0)
      && (forall i: nat :: i < c.n ==> rows[i] == Showing(i * c.spacing, false))
      && rows[c.n] == Showing(c.Begin(), true) && rows[c.n + 1] == Showing(c.Begin() + c.gap, true)
      && rows[c.n + 2] == Showing(c.next, true) && (closing ==> rows[c.n + 3] == Showing(c.Arrival(), false))
    ensures 0 <= c.Begin()
  {
    if c.n > 0 { Spaced(0, c.n, c.spacing); }
  }

  lemma RowsInOrder(c: Race, closing: bool)
    requires c.Valid()
    ensures InTimeOrder(c.Tape(closing).rows)
  {
    RowsOf(c, closing);
    var rows := c.Tape(closing).rows;
    forall i, j | 0 <= i <= j < |rows| ensures rows[i].time <= rows[j].time {
      if i < j && i < c.n { Spaced(i, if j < c.n then j else c.n, c.spacing); }
    }
  }

  // ---- one order ----------------------------------------------------------------------------

  lemma CashHere(c: Race, cooldown: nat, maxEntries: int, time: int)
    requires c.Valid() && c.Begin() >= 0
    ensures var p := c.Strategy(cooldown, maxEntries);
      && p.Valid() && CashAt(RunCash(p, c.Wallet(), 0), time) == Some(c.Purse())
      && SpendOf(p, c.Wallet(), 0, time) == (Some(c.Purse()), c.scarce)
  {
    var p := c.Strategy(cooldown, maxEntries);
    var source := RunCash(p, c.Wallet(), 0);
    assert source.value.requires(time);
    assert c.scarce ==> c.Wallet().value(time) == 4;
    assert source.value(time) == Max(0, (if c.scarce then Max(0, c.Wallet().value(time)) else 10) - 0);
  }

  /** The order of an entry on a row of the market, in a run that has bought nothing. */
  function OrderAt(c: Race, time: int): Order
  {
    Order(Buy, 0, time, 10 * SCALE / 500_000, Some(c.Purse()), false, Some(500_000), None)
  }

  lemma EntryIs(c: Race, closing: bool, cooldown: nat, maxEntries: int, r: Run, s: Impact, row: Row)
    requires c.Valid() && c.Begin() >= 0 && r.debited == 0 && (row == Showing(row.time, true) || row == Showing(row.time, false))
    ensures var p := c.Strategy(cooldown, maxEntries);
      && TRUSTING.Valid() && row.asks != []
      && EntrySent(c.At(closing), p, r, s, row, c.Wallet())
           == SentBy(c.At(closing), s, OrderAt(c, row.time), RunCash(p, c.Wallet(), 0))
  {
    hide SentBy, RunCash, SpendOf;
    CashHere(c, cooldown, maxEntries, row.time);
  }

  /** An order that meets an untrusted row is refused and leaves no trace. */
  lemma Refused(c: Race, closing: bool, cooldown: nat, maxEntries: int, s: Impact, time: int, row: nat)
    requires c.Valid() && c.Begin() >= 0
    requires var arrival := time + c.latency(s.draws);
      && arrival <= c.Arrival() && row < |c.Tape(closing).rows| && !c.Tape(closing).rows[row].valid
      && RowAt(c.Tape(closing).rows, 0, arrival) == Some(row)
    ensures var p := c.Strategy(cooldown, maxEntries);
      var (o, s') := SentBy(c.At(closing), s, OrderAt(c, time), RunCash(p, c.Wallet(), 0));
      o.filled == 0 && o.rejected == Some(BookStateUncertain) && s' == s.(draws := s.draws + 1)
  {
    hide RowAt, RunCash, Reconciled, TakenOn;
    CashHere(c, cooldown, maxEntries, time + c.latency(s.draws));
  }

  /** Whatever a budget of at least one buys of ten shares at one half, some of it fills. */
  lemma SomeFill(o: Order, q: Request, ladder: Ladder, cash: Option<int>)
    requires TRUSTING.Valid() && ladder == [Level(500_000, 10)]
    requires o.side.Buy? && o.maxSpend.Some? && o.maxSpend.value >= 1 && !o.requireFull
    requires q.side.Buy? && q.limit == Some(500_000) && q.realisedVolume.None? && q.minimum == 0
    requires q.size == MaxAffordable(TRUSTING.fee, o.maxSpend.value, 500_000, None)
    ensures Matched(TRUSTING, o, q, ladder, cash).filled > 0
    ensures Matched(TRUSTING, o, q, ladder, cash).rejected != Some(InsufficientAvailableCash)
  {
    hide CutAt, CutSize, MaxAffordable, Cost;
    var fee, spend := TRUSTING.fee, o.maxSpend.value;
    OneCosts(fee);
    NothingAffordableIff(fee, spend, 500_000);
    ResultFits(fee, spend, 500_000);
    var k := Min(q.size, 10);
    CostMonotone(fee, k, q.size, 500_000);
    assert Eligible(TRUSTING, q, ladder) == ladder && ladder[1..] == [];
    GreedyNothing(TRUSTING, [], 2);
    var slice := FillSlice(fee, 500_000, k, 1);
    assert Greedy(TRUSTING, ladder, q.size, 1) == [slice];
    assert [slice][..0] == [] && TallyOf([slice]) == Tally(k, slice.notional, slice.fee);
    SliceCosts(fee, k);
    TrimTotals(fee, [slice], spend);
    assert Trim(fee, [slice], spend) == [slice];
  }

  lemma OneCosts(fee: FeeConfig)
    requires fee == TRUSTING.fee
    ensures fee.Valid() && Cost(fee, 1, 500_000) == 1
  {
  }

  lemma SliceCosts(fee: FeeConfig, k: nat)
    requires fee.Valid()
    ensures FillSlice(fee, 500_000, k, 1).notional + FillSlice(fee, 500_000, k, 1).fee == Cost(fee, k, 500_000)
  {
  }

  /** An order that meets a trusted row before anything was taken fills, if only in part. */
  lemma Fills(c: Race, closing: bool, cooldown: nat, maxEntries: int, s: Impact, time: int, row: nat)
    requires c.Valid() && c.Begin() >= 0 && s.record == map[] && s.cursor == map[]
    requires var arrival := time + c.latency(s.draws);
      && arrival <= c.Arrival() && row < |c.Tape(closing).rows| && c.Tape(closing).rows[row].valid
      && RowAt(c.Tape(closing).rows, 0, arrival) == Some(row) && c.Tape(closing).rows[row].asks == [Level(500_000, 10)]
    ensures var p := c.Strategy(cooldown, maxEntries);
      var o := SentBy(c.At(closing), s, OrderAt(c, time), RunCash(p, c.Wallet(), 0)).0;
      o.filled > 0 && o.rejected != Some(InsufficientAvailableCash)
  {
    hide RowAt, RunCash, TakenOn, Net, Matched, Noted, Replayed, MaxAffordable;
    var arrival, ladder, o := time + c.latency(s.draws), [Level(500_000, 10)], OrderAt(c, time);
    CashHere(c, cooldown, maxEntries, arrival);
    NothingTaken(c.Tape(closing).rows, row, ladder);
    SomeFill(o, RequestOf(c.Tape(closing), TRUSTING, o, arrival, row, ladder), ladder, Some(c.Purse()));
  }

  // ---- the orders before the race -----------------------------------------------------------

  /** After `i` refused orders. */
  ghost predicate Waited(c: Race, e: EpisodeState, i: nat)
  {
    var r := e.run;
    && e.status.Going? && |r.orders| == i && r.shares == 0 && !r.entered && r.debited == 0
    && r.nextEntry <= i * c.spacing && r.entries == (if c.scarce then 0 else i)
    && e.impact == Impact(map[], map[], i) && !r.stopActive && !r.flattenTried
  }

  /** A row of the market triggers an entry of a run that has not entered. */
  lemma RowEnters(c: Race, closing: bool, cooldown: nat, maxEntries: int, e: EpisodeState, row: Row)
    requires c.Valid() && c.Begin() >= 0 && (row == Showing(row.time, true) || row == Showing(row.time, false))
    requires e.status.Going? && e.run.shares == 0 && e.run.entries < maxEntries
    requires e.run.nextEntry <= row.time <= c.Begin() + c.gap
    ensures TRUSTING.Valid() && c.Strategy(cooldown, maxEntries).Valid() && row.asks != []
    ensures var (after, s) := ImmediateStep(c.At(closing), c.Strategy(cooldown, maxEntries), e.run, e.impact, row, c.Wallet());
      RowStep(c.At(closing), c.Strategy(cooldown, maxEntries), c.Wallet(), e, row) == EpisodeState(after, s, Going)
  {
    hide ImmediateStep, SequentialStep, ExitStep;
  }

  /** One more order that meets an untrusted book. */
  lemma OneRefused(c: Race, closing: bool, cooldown: nat, maxEntries: int, e: EpisodeState, row: Row, at: nat)
    requires c.Runs(cooldown, maxEntries) && c.Begin() >= 0 && (row == Showing(row.time, true) || row == Showing(row.time, false))
    requires e.status.Going? && e.run.shares == 0 && !e.run.entered && e.run.debited == 0 && e.run.entries < maxEntries
    requires e.run.nextEntry <= row.time <= c.Begin() + c.gap && row.time + c.latency(e.impact.draws) <= c.Arrival()
    requires at < |c.Tape(closing).rows| && !c.Tape(closing).rows[at].valid
    requires RowAt(c.Tape(closing).rows, 0, row.time + c.latency(e.impact.draws)) == Some(at)
    ensures TRUSTING.Valid() && c.Strategy(cooldown, maxEntries).Valid()
    ensures var after := RowStep(c.At(closing), c.Strategy(cooldown, maxEntries), c.Wallet(), e, row);
      && after.status.Going? && after.run.shares == 0 && !after.run.entered && after.run.debited == 0
      && after.impact == e.impact.(draws := e.impact.draws + 1)
      && after.run.stopActive == e.run.stopActive && after.run.flattenTried == e.run.flattenTried
      && |after.run.orders| == |e.run.orders| + 1 && after.run.orders[..|e.run.orders|] == e.run.orders
      && after.run.entries == (if c.scarce then e.run.entries else e.run.entries + 1)
      && after.run.nextEntry == (if c.scarce then e.run.nextEntry else row.time + cooldown)
      && after.run.orders[|e.run.orders|].filled == 0
      && after.run.orders[|e.run.orders|].arrival == row.time + c.latency(e.impact.draws)
  {
    hide RowStep, ImmediateStep, SentBy, RunCash, SpendOf, RowAt;
    RowEnters(c, closing, cooldown, maxEntries, e, row);
    EntryIs(c, closing, cooldown, maxEntries, e.run, e.impact, row);
    Refused(c, closing, cooldown, maxEntries, e.impact, row.time, at);
    CashHere(c, cooldown, maxEntries, row.time);
    EntryShape(c.At(closing), c.Strategy(cooldown, maxEntries), e.run, e.impact, row, c.Wallet());
  }

  lemma {:induction false} OrdersWait(c: Race, closing: bool, cooldown: nat, maxEntries: int, s0: Impact, i: nat)
    requires c.Runs(cooldown, maxEntries) && s0 == NO_IMPACT && i <= c.n
    ensures TRUSTING.Valid() && c.Begin() >= 0 && c.Strategy(cooldown, maxEntries).Valid() && i <= |c.Tape(closing).rows|
    ensures Waited(c, EpisodeAfter(c.At(closing), c.Strategy(cooldown, maxEntries), c.Wallet(), s0, c.Tape(closing).rows[..i]), i)
  {
    hide RowStep, EpisodeAfter, Waited;
    RowsOf(c, closing);
    CashHere(c, cooldown, maxEntries, 0);
    var v, p, rows := c.At(closing), c.Strategy(cooldown, maxEntries), c.Tape(closing).rows;
    if i == 0 {
      NoRows(v, p, c.Wallet(), s0, rows);
      StartWaits(c, cooldown, maxEntries, s0, closing);
    } else {
      OrdersWait(c, closing, cooldown, maxEntries, s0, i - 1);
      RowOneMore(v, p, c.Wallet(), s0, rows, i - 1);
      OneWaits(c, closing, cooldown, maxEntries, EpisodeAfter(v, p, c.Wallet(), s0, rows[..i - 1]), i - 1);
    }
  }

  lemma StartWaits(c: Race, cooldown: nat, maxEntries: int, s0: Impact, closing: bool)
    requires c.Valid() && c.Begin() >= 0 && s0 == NO_IMPACT
    ensures Waited(c, EpisodeState(StartOf(c.Strategy(cooldown, maxEntries), c.Tape(closing)), s0, Going), 0)
  {
  }

  lemma OneWaits(c: Race, closing: bool, cooldown: nat, maxEntries: int, e: EpisodeState, i: nat)
    requires c.Runs(cooldown, maxEntries) && i < c.n && Waited(c, e, i)
    ensures TRUSTING.Valid() && c.Begin() >= 0 && c.Strategy(cooldown, maxEntries).Valid() && i < |c.Tape(closing).rows|
    ensures Waited(c, RowStep(c.At(closing), c.Strategy(cooldown, maxEntries), c.Wallet(), e, c.Tape(closing).rows[i]), i + 1)
  {
    hide RowStep, RowAt;
    RowsOf(c, closing);
    CashHere(c, cooldown, maxEntries, 0);
    Spaced(i, i + 1, c.spacing);
    Spaced(i, c.n, c.spacing);
    LaterRows(c, closing, i);
    RowIs(c.Tape(closing).rows, i * c.spacing + c.latency(i), i);
    OneRefused(c, closing, cooldown, maxEntries, e, c.Tape(closing).rows[i], i);
  }

  /** The rows after the `i`-th are at least one spacing later. */
  lemma LaterRows(c: Race, closing: bool, i: nat)
    requires c.Valid() && i < c.n
    ensures var rows := c.Tape(closing).rows; forall j :: i < j < |rows| ==> rows[j].time >= i * c.spacing + c.spacing
  {
    RowsOf(c, closing);
    var rows := c.Tape(closing).rows;
    forall j | i < j < |rows| ensures rows[j].time >= i * c.spacing + c.spacing {
      Spaced(i, if j < c.n then j else c.n, c.spacing);
    }
  }

  // ---- the race -----------------------------------------------------------------------------

  /** Where the book closes, order `n` is refused and the next one is sent before it arrives. */
  lemma Retried(c: Race, cooldown: nat, maxEntries: int, s0: Impact) returns (missed: EpisodeState)
    requires c.Runs(cooldown, maxEntries) && s0 == NO_IMPACT
    ensures TRUSTING.Valid() && c.Begin() >= 0 && c.Strategy(cooldown, maxEntries).Valid() && c.n + 1 <= |c.Tape(true).rows|
    ensures missed == EpisodeAfter(c.At(true), c.Strategy(cooldown, maxEntries), c.Wallet(), s0, c.Tape(true).rows[..c.n + 1])
    ensures var r := missed.run;
      && missed.status.Going? && r.shares == 0 && !r.entered && r.debited == 0 && r.entries < maxEntries
      && r.nextEntry <= c.Begin() + c.gap && missed.impact == Impact(map[], map[], c.n + 1)
      && !r.stopActive && !r.flattenTried
      && |r.orders| == c.n + 1 && r.orders[c.n].filled == 0 && r.orders[c.n].arrival == c.Arrival()
  {
    hide RowStep, EpisodeAfter;
    OrdersWait(c, true, cooldown, maxEntries, s0, c.n);
    RowsOf(c, true);
    var v, p, rows := c.At(true), c.Strategy(cooldown, maxEntries), c.Tape(true).rows;
    var e := EpisodeAfter(v, p, c.Wallet(), s0, rows[..c.n]);
    RowOneMore(v, p, c.Wallet(), s0, rows, c.n);
    RowIs(rows, c.Arrival(), c.n + 3);
    OneRefused(c, true, cooldown, maxEntries, e, rows[c.n], c.n + 3);
    missed := EpisodeAfter(v, p, c.Wallet(), s0, rows[..c.n + 1]);
  }

  lemma NextSent(c: Race, cooldown: nat, maxEntries: int, s0: Impact) returns (sent: EpisodeState)
    requires c.Runs(cooldown, maxEntries) && s0 == NO_IMPACT
    ensures TRUSTING.Valid() && c.Begin() >= 0 && c.Strategy(cooldown, maxEntries).Valid() && c.n + 2 <= |c.Tape(true).rows|
    ensures sent == EpisodeAfter(c.At(true), c.Strategy(cooldown, maxEntries), c.Wallet(), s0, c.Tape(true).rows[..c.n + 2])
    ensures var orders := sent.run.orders;
      && |orders| == c.n + 2 && orders[c.n].filled == 0 && orders[c.n].arrival == c.Arrival()
      && orders[c.n + 1].decision == c.Begin() + c.gap && orders[c.n + 1].arrival == c.Begin() + c.gap + c.latency(c.n + 1)
    ensures c.next == c.Begin() + c.gap + c.latency(c.n + 1) ==>
      var r := sent.run;
      sent.status.Going? && r.shares > 0 && r.token == 0 && r.effective == c.next && !r.stopActive && !r.flattenTried
  {
    hide RowStep, EpisodeAfter, ImmediateStep, SentBy, RunCash, RowAt;
    var missed := Retried(c, cooldown, maxEntries, s0);
    RowsOf(c, true);
    var v, p, rows := c.At(true), c.Strategy(cooldown, maxEntries), c.Tape(true).rows;
    var row := rows[c.n + 1];
    RowOneMore(v, p, c.Wallet(), s0, rows, c.n + 1);
    RowEnters(c, true, cooldown, maxEntries, missed, row);
    EntryIs(c, true, cooldown, maxEntries, missed.run, missed.impact, row);
    EntryShape(v, p, missed.run, missed.impact, row, c.Wallet());
    if c.next == c.Begin() + c.gap + c.latency(c.n + 1) {
      RowIs(rows, c.next, c.n + 2);
      Fills(c, true, cooldown, maxEntries, missed.impact, row.time, c.n + 2);
    }
    sent := EpisodeAfter(v, p, c.Wallet(), s0, rows[..c.n + 2]);
  }

  /** Once it has filled, the stop is decided on the last row, before order `n` arrives. */
  lemma StopsEarly(c: Race, cooldown: nat, maxEntries: int, e: EpisodeState)
    requires c.Valid() && c.Begin() >= 0 && TRUSTING.Valid() && c.Strategy(cooldown, maxEntries).Valid()
    requires e.status.Going? && e.run.shares > 0 && e.run.token == 0 && e.run.effective == c.next
    requires !e.run.stopActive && !e.run.flattenTried
    ensures var after := RowStep(c.At(true), c.Strategy(cooldown, maxEntries), c.Wallet(), e, Showing(c.next, true));
      && |after.run.orders| == |e.run.orders| + 1 && after.run.orders[..|e.run.orders|] == e.run.orders
      && !after.run.orders[|e.run.orders|].kind.Entry? && after.run.orders[|e.run.orders|].decision == c.next
  {
    hide ExitStep, ImmediateStep, SequentialStep;
    var v, p := c.At(true), c.Strategy(cooldown, maxEntries);
    StopChosen(v, p, e.run, c.next);
    ExitShape(v, p, e.run, e.impact, Some(400_000), 0, c.next);
    ExitAdds(v, p, e.run, e.impact, c.next);
  }

  lemma StopChosen(v: Venue, p: Params, r: Run, time: int)
    requires p.stop == Some(450_000) && p.stopFrom.None? && p.stopFractionPpm == PPM && r.shares > 0 && !r.stopActive
    ensures ChooseExit(p, v.tape, r, Some(400_000), time) == Some((StopLoss, r.shares))
  {
    DivBracket(r.shares * PPM, PPM, r.shares);
  }

  lemma ExitAdds(v: Venue, p: Params, r: Run, s: Impact, time: int)
    requires v.realism.Valid() && ChooseExit(p, v.tape, r, Some(400_000), time).Some?
    ensures |ExitStep(v, p, r, s, Some(400_000), 0, time).0.orders| == |r.orders| + 1
  {
    hide SentBy, ChooseExit;
  }

  /** Where the book stays open, order `n` fills, and nothing is sent before it arrives. */
  lemma Held(c: Race, cooldown: nat, maxEntries: int, s0: Impact)
    requires c.Runs(cooldown, maxEntries) && s0 == NO_IMPACT
    ensures TRUSTING.Valid() && c.Begin() >= 0 && c.Strategy(cooldown, maxEntries).Valid()
    ensures var orders := EpisodeAfter(c.At(false), c.Strategy(cooldown, maxEntries), c.Wallet(), s0, c.Tape(false).rows).run.orders;
      |orders| == c.n + 1 && orders[c.n].filled > 0
  {
    hide RowStep, EpisodeAfter, ImmediateStep, SentBy, RunCash, RowAt;
    OrdersWait(c, false, cooldown, maxEntries, s0, c.n);
    RowsOf(c, false);
    var v, p, rows := c.At(false), c.Strategy(cooldown, maxEntries), c.Tape(false).rows;
    var e, row := EpisodeAfter(v, p, c.Wallet(), s0, rows[..c.n]), rows[c.n];
    RowOneMore(v, p, c.Wallet(), s0, rows, c.n);
    RowEnters(c, false, cooldown, maxEntries, e, row);
    EntryIs(c, false, cooldown, maxEntries, e.run, e.impact, row);
    RowIs(rows, c.Arrival(), c.n + 2);
    Fills(c, false, cooldown, maxEntries, e.impact, row.time, c.n + 2);
    EntryShape(v, p, e.run, e.impact, row, c.Wallet());
    var held := EpisodeAfter(v, p, c.Wallet(), s0, rows[..c.n + 1]);
    RowOneMore(v, p, c.Wallet(), s0, rows, c.n + 1);
    Waits(v, p, c.Wallet(), held, rows[c.n + 1]);
    RowOneMore(v, p, c.Wallet(), s0, rows, c.n + 2);
    Waits(v, p, c.Wallet(), EpisodeAfter(v, p, c.Wallet(), s0, rows[..c.n + 2]), rows[c.n + 2]);
    assert rows[..c.n + 3] == rows;
  }

  lemma Waits(v: Venue, p: Params, cash: CashSource, e: EpisodeState, row: Row)
    requires v.realism.Valid() && p.Valid() && e.status.Going? && e.run.shares > 0 && row.time < e.run.effective
    requires row.time <= v.tape.end
    ensures RowStep(v, p, cash, e, row) == e
  {
    hide ImmediateStep, SequentialStep, ExitStep;
  }

  /** The whole run of the closing market begins with the orders of the race. */
  lemma RaceOrders(c: Race, cooldown: nat, maxEntries: int, s0: Impact) returns (sent: EpisodeState)
    requires c.Runs(cooldown, maxEntries) && s0 == NO_IMPACT
    ensures TRUSTING.Valid() && c.Begin() >= 0 && c.Strategy(cooldown, maxEntries).Valid() && c.n + 2 <= |c.Tape(true).rows|
    ensures var orders := sent.run.orders;
      && |orders| == c.n + 2 && orders[c.n].filled == 0 && orders[c.n].arrival == c.Arrival()
      && orders[c.n + 1].decision == c.Begin() + c.gap && orders[c.n + 1].arrival == c.Begin() + c.gap + c.latency(c.n + 1)
      && orders <= EpisodeAfter(c.At(true), c.Strategy(cooldown, maxEntries), c.Wallet(), s0, c.Tape(true).rows).run.orders
  {
    hide EpisodeAfter, RowStep;
    sent := NextSent(c, cooldown, maxEntries, s0);
    OrdersGrow(c.At(true), c.Strategy(cooldown, maxEntries), c.Wallet(), c.Tape(true).rows, c.n + 2);
  }

  lemma {:induction false} OrdersGrow(v: Venue, p: Params, cash: CashSource, rows: seq<Row>, n: nat)
    requires v.realism.Valid() && p.Valid() && n <= |rows|
    ensures EpisodeAfter(v, p, cash, NO_IMPACT, rows[..n]).run.orders <= EpisodeAfter(v, p, cash, NO_IMPACT, rows).run.orders
    decreases |rows|
  {
    hide RowStep, Orderly;
    if n == |rows| {
      assert rows[..n] == rows;
    } else {
      var init, row := rows[..|rows| - 1], rows[|rows| - 1];
      assert init[..n] == rows[..n];
      OrdersGrow(v, p, cash, init, n);
      EpisodeOrderly(v, p, cash, init);
      RowAdds(v, p, cash, EpisodeAfter(v, p, cash, NO_IMPACT, init), row, row.time - 1);
    }
  }

  /** Order `n` is overtaken by the stop of the position that the next order opened. */
  lemma Overtaken(c: Race, cooldown: nat, maxEntries: int, s0: Impact)
    requires c.Runs(cooldown, maxEntries) && s0 == NO_IMPACT && c.next == c.Begin() + c.gap + c.latency(c.n + 1)
    ensures TRUSTING.Valid() && c.Begin() >= 0 && c.Strategy(cooldown, maxEntries).Valid() && InTimeOrder(c.Tape(true).rows)
    ensures var orders := EpisodeAfter(c.At(true), c.Strategy(cooldown, maxEntries), c.Wallet(), s0, c.Tape(true).rows).run.orders;
      && |orders| > c.n + 2 && orders[c.n].filled == 0 && !orders[c.n + 2].kind.Entry?
      && orders[c.n + 2].decision < orders[c.n].arrival && !ExitsWaitForAll(orders)
  {
    hide EpisodeAfter, RowStep, ExitsWaitForAll;
    var sent := NextSent(c, cooldown, maxEntries, s0);
    RowsOf(c, true);
    RowsInOrder(c, true);
    var v, p, rows := c.At(true), c.Strategy(cooldown, maxEntries), c.Tape(true).rows;
    RowOneMore(v, p, c.Wallet(), s0, rows, c.n + 2);
    StopsEarly(c, cooldown, maxEntries, sent);
    OrdersGrow(v, p, c.Wallet(), rows, c.n + 3);
    var some, all := EpisodeAfter(v, p, c.Wallet(), s0, rows[..c.n + 3]).run.orders, EpisodeAfter(v, p, c.Wallet(), s0, rows).run.orders;
    assert some[c.n] == sent.run.orders[c.n] && all[c.n] == some[c.n] && all[c.n + 2] == some[c.n + 2];
    OneOvertakes(all, c.n, c.n + 2);
  }

  lemma OneOvertakes(orders: seq<SimulatedOrder>, i: nat, j: nat)
    requires i < j < |orders| && !orders[j].kind.Entry? && orders[j].decision < orders[i].arrival
    ensures !ExitsWaitForAll(orders)
  {
  }

  /** The two markets agree up to any instant before order `n` arrives, and yet the runs differ in it and in
      whether the next order is sent. */
  lemma KnowsTheFuture(c: Race, cooldown: nat, maxEntries: int, s0: Impact, time: int)
    requires c.Runs(cooldown, maxEntries) && s0 == NO_IMPACT && c.next <= time < c.Arrival()
    ensures TRUSTING.Valid() && c.Begin() >= 0 && c.Strategy(cooldown, maxEntries).Valid()
    ensures VenuesAgree(c.At(true), c.At(false), c.n + 3, 0, time) && InTimeOrder(c.Tape(true).rows)
    ensures var p := c.Strategy(cooldown, maxEntries);
      var x := EpisodeAfter(c.At(true), p, c.Wallet(), s0, c.Tape(true).rows).run.orders;
      var y := EpisodeAfter(c.At(false), p, c.Wallet(), s0, c.Tape(false).rows).run.orders;
      && (c.Begin() + c.gap + c.latency(c.n + 1) <= time ==> forall j: nat :: !OrdersShare(x, y, j, time))
      && forall j: nat :: !DecisionsShare(x, y, j, time)
  {
    hide EpisodeAfter, OrdersShare, DecisionsShare, VenuesAgree;
    var sent := RaceOrders(c, cooldown, maxEntries, s0);
    Held(c, cooldown, maxEntries, s0);
    MarketsAgree(c, time);
    RowsInOrder(c, true);
    var p := c.Strategy(cooldown, maxEntries);
    var x := EpisodeAfter(c.At(true), p, c.Wallet(), s0, c.Tape(true).rows).run.orders;
    var y := EpisodeAfter(c.At(false), p, c.Wallet(), s0, c.Tape(false).rows).run.orders;
    assert x[c.n] == sent.run.orders[c.n] && x[c.n + 1] == sent.run.orders[c.n + 1];
    forall j: nat ensures !DecisionsShare(x, y, j, time) && (x[c.n + 1].arrival <= time ==> !OrdersShare(x, y, j, time)) {
      NothingShared(x, y, c.n, j, time);
    }
  }

  lemma MarketsAgree(c: Race, time: int)
    requires c.Valid() && c.next <= time < c.Arrival()
    ensures VenuesAgree(c.At(true), c.At(false), c.n + 3, 0, time)
  {
    RowsOf(c, true);
    RowsOf(c, false);
    RowsInOrder(c, false);
    var a, b := c.Tape(true).rows, c.Tape(false).rows;
    assert a[..c.n + 3] == b[..c.n + 3];
    forall i | 0 <= i < c.n + 3 ensures a[i].time <= time { assert a[i] == b[i] && b[i].time <= b[c.n + 2].time; }
  }

  lemma NothingShared(x: seq<SimulatedOrder>, y: seq<SimulatedOrder>, n: nat, j: nat, time: int)
    requires |x| >= n + 2 && |y| == n + 1 && x[n].filled != y[n].filled && x[n + 1].decision <= time
    ensures !DecisionsShare(x, y, j, time) && (x[n + 1].arrival <= time ==> !OrdersShare(x, y, j, time))
  {
    if j > n && j <= |x| && j <= |y| { assert x[..j][n] != y[..j][n]; }
  }

  // ---- what latencies decide ----------------------------------------------------------------

  /** An immediate strategy with these parameters on some market with these latencies. */
  ghost predicate Setting(v: Venue, p: Params, latency: nat -> nat, cooldown: nat, maxEntries: int)
  {
    && v.realism.Valid() && p.Valid() && p.entry.Immediate?
    && v.latency == latency && p.cooldown == cooldown && p.maxEntries == maxEntries
  }

  /** On every market, for every such strategy and wallet, every exit waits for every order before it. */
  ghost predicate ExitsAlwaysWait(latency: nat -> nat, cooldown: nat, maxEntries: int, ample: bool)
  {
    forall v: Venue, p: Params, cash: CashSource, rows: seq<Row> ::
      Setting(v, p, latency, cooldown, maxEntries) && InTimeOrder(rows) && (ample ==> Ample(p, cash, v.tape.start)) ==>
        ExitsWaitForAll(EpisodeAfter(v, p, cash, NO_IMPACT, rows).run.orders)
  }

  ghost predicate Shared(v: Venue, w: Venue, p: Params, a: CashSource, b: CashSource, time: int, decisions: bool)
    requires v.realism.Valid() && w.realism == v.realism && p.Valid()
  {
    var x, y := EpisodeAfter(v, p, a, NO_IMPACT, v.tape.rows).run.orders, EpisodeAfter(w, p, b, NO_IMPACT, w.tape.rows).run.orders;
    if decisions then exists j: nat :: DecisionsShare(x, y, j, time) else exists j: nat :: OrdersShare(x, y, j, time)
  }

  /** On every two markets that agree up to a time, with wallets that do, every such strategy shares what
      arrives, or what it decides, by then. */
  ghost predicate FutureUnknown(latency: nat -> nat, cooldown: nat, maxEntries: int, ample: bool, decisions: bool)
  {
    forall v: Venue, w: Venue, m: nat, k: nat, time: int, p: Params, a: CashSource, b: CashSource ::
      (Setting(v, p, latency, cooldown, maxEntries) && VenuesAgree(v, w, m, k, time) && InTimeOrder(v.tape.rows)
       && CashAgrees(a, b, v.tape.start, time) && (ample ==> Ample(p, a, v.tape.start) && Ample(p, b, v.tape.start))) ==>
        Shared(v, w, p, a, b, time, decisions)
  }

  /** More than each of the first `n` latencies. */
  function Slowest(latency: nat -> nat, n: nat): (s: nat)
    ensures forall i: nat :: i < n ==> latency(i) < s
  {
    if n == 0 then 0 else var rest := Slowest(latency, n - 1); if latency(n - 1) < rest then rest else latency(n - 1) + 1
  }

  /** A race between these two orders, whose last row comes so long after the second is sent. */
  function RaceFrom(latency: nat -> nat, n: nat, gap: nat, later: nat, scarce: bool): Race
  {
    var spacing := gap + Slowest(latency, n);
    Race(latency, n, gap, spacing, n * spacing + gap + later, scarce)
  }

  lemma RaceRuns(latency: nat -> nat, n: nat, gap: nat, later: nat, scarce: bool, cooldown: nat, maxEntries: int)
    requires gap + later < latency(n)
    requires if scarce then gap == 0 && maxEntries >= 1 else gap == cooldown && n + 1 < maxEntries
    ensures RaceFrom(latency, n, gap, later, scarce).Runs(cooldown, maxEntries)
  {
  }

  /** The wallet of a race is ample unless it is scarce, and answers always. */
  lemma WalletOf(c: Race, cooldown: nat, maxEntries: int, time: int)
    requires c.Begin() + c.gap >= 0
    ensures CashAgrees(c.Wallet(), c.Wallet(), 0, time)
    ensures !c.scarce ==> Ample(c.Strategy(cooldown, maxEntries), c.Wallet(), 0)
  {
  }

  lemma OvertakesSomewhere(latency: nat -> nat, n: nat, gap: nat, scarce: bool, cooldown: nat, maxEntries: int)
    requires gap + latency(n + 1) < latency(n)
    requires if scarce then gap == 0 && maxEntries >= 1 else gap == cooldown && n + 1 < maxEntries
    ensures !ExitsAlwaysWait(latency, cooldown, maxEntries, !scarce)
  {
    hide EpisodeAfter, ExitsWaitForAll, Ample;
    var c := RaceFrom(latency, n, gap, latency(n + 1), scarce);
    RaceRuns(latency, n, gap, latency(n + 1), scarce, cooldown, maxEntries);
    Overtaken(c, cooldown, maxEntries, NO_IMPACT);
    WalletOf(c, cooldown, maxEntries, 0);
    assert Setting(c.At(true), c.Strategy(cooldown, maxEntries), latency, cooldown, maxEntries);
  }

  lemma ForeseesSomewhere(latency: nat -> nat, n: nat, gap: nat, later: nat, scarce: bool, cooldown: nat, maxEntries: int,
                          decisions: bool)
    requires gap + later < latency(n) && (decisions || later == latency(n + 1))
    requires if scarce then gap == 0 && maxEntries >= 1 else gap == cooldown && n + 1 < maxEntries
    ensures !FutureUnknown(latency, cooldown, maxEntries, !scarce, decisions)
  {
    hide EpisodeAfter, OrdersShare, DecisionsShare, VenuesAgree, CashAgrees, Ample, Shared, InTimeOrder;
    var c := RaceFrom(latency, n, gap, later, scarce);
    RaceRuns(latency, n, gap, later, scarce, cooldown, maxEntries);
    WalletOf(c, cooldown, maxEntries, c.next);
    RaceNotShared(c, cooldown, maxEntries, NO_IMPACT, decisions);
    assert Setting(c.At(true), c.Strategy(cooldown, maxEntries), latency, cooldown, maxEntries);
  }

  lemma RaceNotShared(c: Race, cooldown: nat, maxEntries: int, s0: Impact, decisions: bool)
    requires c.Runs(cooldown, maxEntries) && s0 == NO_IMPACT
    requires decisions || c.next == c.Begin() + c.gap + c.latency(c.n + 1)
    ensures TRUSTING.Valid() && c.Begin() >= 0 && c.Strategy(cooldown, maxEntries).Valid()
    ensures VenuesAgree(c.At(true), c.At(false), c.n + 3, 0, c.next) && InTimeOrder(c.Tape(true).rows)
    ensures !Shared(c.At(true), c.At(false), c.Strategy(cooldown, maxEntries), c.Wallet(), c.Wallet(), c.next, decisions)
  {
    hide EpisodeAfter, OrdersShare, DecisionsShare, VenuesAgree, InTimeOrder;
    KnowsTheFuture(c, cooldown, maxEntries, s0, c.next);
    var p := c.Strategy(cooldown, maxEntries);
    var x := EpisodeAfter(c.At(true), p, c.Wallet(), s0, c.Tape(true).rows).run.orders;
    var y := EpisodeAfter(c.At(false), p, c.Wallet(), s0, c.Tape(false).rows).run.orders;
    NoneShared(c.At(true), c.At(false), p, c.Wallet(), c.next, decisions, x, y);
  }

  lemma NoneShared(v: Venue, w: Venue, p: Params, cash: CashSource, time: int, decisions: bool, x: seq<SimulatedOrder>,
                   y: seq<SimulatedOrder>)
    requires v.realism.Valid() && w.realism == v.realism && p.Valid()
    requires x == EpisodeAfter(v, p, cash, NO_IMPACT, v.tape.rows).run.orders
    requires y == EpisodeAfter(w, p, cash, NO_IMPACT, w.tape.rows).run.orders
    requires if decisions then forall j: nat :: !DecisionsShare(x, y, j, time) else forall j: nat :: !OrdersShare(x, y, j, time)
    ensures !Shared(v, w, p, cash, cash, time, decisions)
  {
    hide EpisodeAfter, OrdersShare, DecisionsShare;
  }

  /** Exits wait for all orders, on every market, exactly when entries arrive in turn. With ample cash that means:
      none is slower than the next by more than the cooldown. With any wallet: none is slower than the next. */
  lemma ExitsAlwaysWaitIff(latency: nat -> nat, cooldown: nat, maxEntries: int)
    ensures ExitsAlwaysWait(latency, cooldown, maxEntries, true) <==> Paced(latency, 0, cooldown, maxEntries)
    ensures ExitsAlwaysWait(latency, cooldown, maxEntries, false) <==> maxEntries <= 0 || Steady(latency, 0)
  {
    hide EpisodeAfter, ExitsWaitForAll, Ample, InTurn, ExitsAlwaysWait;
    if Paced(latency, 0, cooldown, maxEntries) {
      AlwaysWait(latency, cooldown, maxEntries, true);
    } else {
      var n: nat, m: nat :| m == n + 1 && m < maxEntries && latency(n) > latency(m) + cooldown;
      OvertakesSomewhere(latency, n, cooldown, false, cooldown, maxEntries);
    }
    if maxEntries <= 0 || Steady(latency, 0) {
      AlwaysWait(latency, cooldown, maxEntries, false);
    } else {
      var n: nat, m: nat :| m == n + 1 && latency(n) > latency(m);
      OvertakesSomewhere(latency, n, 0, true, cooldown, maxEntries);
    }
  }

  lemma AlwaysWait(latency: nat -> nat, cooldown: nat, maxEntries: int, ample: bool)
    requires if ample then Paced(latency, 0, cooldown, maxEntries) else maxEntries <= 0 || Steady(latency, 0)
    ensures ExitsAlwaysWait(latency, cooldown, maxEntries, ample)
  {
    hide EpisodeAfter, ExitsWaitForAll, Ample, Paced, Steady;
    forall v: Venue, p: Params, cash: CashSource, rows: seq<Row>
      | Setting(v, p, latency, cooldown, maxEntries) && InTimeOrder(rows) && (ample ==> Ample(p, cash, v.tape.start))
      ensures ExitsWaitForAll(EpisodeAfter(v, p, cash, NO_IMPACT, rows).run.orders)
    {
      ExitsWaitInTurn(v, p, cash, NO_IMPACT, rows);
    }
  }

  /** Nothing that arrives by a time depends on what comes later, on any two markets, under exactly the same
      conditions. */
  lemma ArrivalsForeseeNothingIff(latency: nat -> nat, cooldown: nat, maxEntries: int)
    ensures FutureUnknown(latency, cooldown, maxEntries, true, false) <==> Paced(latency, 0, cooldown, maxEntries)
    ensures FutureUnknown(latency, cooldown, maxEntries, false, false) <==> maxEntries <= 0 || Steady(latency, 0)
  {
    hide FutureUnknown;
    if Paced(latency, 0, cooldown, maxEntries) {
      ArrivalsUnknown(latency, cooldown, maxEntries, true);
    } else {
      var n: nat, m: nat :| m == n + 1 && m < maxEntries && latency(n) > latency(m) + cooldown;
      ForeseesSomewhere(latency, n, cooldown, latency(m), false, cooldown, maxEntries, false);
    }
    if maxEntries <= 0 || Steady(latency, 0) {
      ArrivalsUnknown(latency, cooldown, maxEntries, false);
    } else {
      var n: nat, m: nat :| m == n + 1 && latency(n) > latency(m);
      ForeseesSomewhere(latency, n, 0, latency(m), true, cooldown, maxEntries, false);
    }
  }

  lemma ArrivalsUnknown(latency: nat -> nat, cooldown: nat, maxEntries: int, ample: bool)
    requires if ample then Paced(latency, 0, cooldown, maxEntries) else maxEntries <= 0 || Steady(latency, 0)
    ensures FutureUnknown(latency, cooldown, maxEntries, ample, false)
  {
    hide EpisodeAfter, OrdersShare, VenuesAgree, CashAgrees, Ample, Paced, Steady, InTimeOrder;
    forall v: Venue, w: Venue, m: nat, k: nat, time: int, p: Params, a: CashSource, b: CashSource
      | Setting(v, p, latency, cooldown, maxEntries) && VenuesAgree(v, w, m, k, time) && InTimeOrder(v.tape.rows)
        && CashAgrees(a, b, v.tape.start, time) && (ample ==> Ample(p, a, v.tape.start) && Ample(p, b, v.tape.start))
      ensures w.realism == v.realism && Shared(v, w, p, a, b, time, false)
    {
      AgreeFacts(v, w, m, k, time);
      var j := NoForeknowledge(v, w, m, k, time, p, a, b);
    }
  }

  /** Nothing decided by a time depends on what comes later, on any two markets, exactly when no entry is decided
      before the one before it arrives. With ample cash that means: the cooldown covers the latency of every
      entry that another can follow. With any wallet: all orders arrive at once. */
  lemma DecisionsForeseeNothingIff(latency: nat -> nat, cooldown: nat, maxEntries: int)
    ensures FutureUnknown(latency, cooldown, maxEntries, true, true) <==> Cooled(latency, 0, cooldown, maxEntries)
    ensures FutureUnknown(latency, cooldown, maxEntries, false, true) <==> maxEntries <= 0 || AtOnce(latency, 0)
  {
    hide FutureUnknown;
    if Cooled(latency, 0, cooldown, maxEntries) {
      DecisionsUnknown(latency, cooldown, maxEntries, true);
    } else {
      var n: nat :| n + 1 < maxEntries && latency(n) > cooldown;
      ForeseesSomewhere(latency, n, cooldown, 0, false, cooldown, maxEntries, true);
    }
    if maxEntries <= 0 || AtOnce(latency, 0) {
      DecisionsUnknown(latency, cooldown, maxEntries, false);
    } else {
      var n: nat :| latency(n) != 0;
      ForeseesSomewhere(latency, n, 0, 0, true, cooldown, maxEntries, true);
    }
  }

  lemma DecisionsUnknown(latency: nat -> nat, cooldown: nat, maxEntries: int, ample: bool)
    requires if ample then Cooled(latency, 0, cooldown, maxEntries) else maxEntries <= 0 || AtOnce(latency, 0)
    ensures FutureUnknown(latency, cooldown, maxEntries, ample, true)
  {
    hide EpisodeAfter, DecisionsShare, VenuesAgree, CashAgrees, Ample, Cooled, AtOnce, InTimeOrder;
    forall v: Venue, w: Venue, m: nat, k: nat, time: int, p: Params, a: CashSource, b: CashSource
      | Setting(v, p, latency, cooldown, maxEntries) && VenuesAgree(v, w, m, k, time) && InTimeOrder(v.tape.rows)
        && CashAgrees(a, b, v.tape.start, time) && (ample ==> Ample(p, a, v.tape.start) && Ample(p, b, v.tape.start))
      ensures w.realism == v.realism && Shared(v, w, p, a, b, time, true)
    {
      AgreeFacts(v, w, m, k, time);
      var j := DecisionsReadThePast(v, w, m, k, time, p, a, b);
    }
  }
}
