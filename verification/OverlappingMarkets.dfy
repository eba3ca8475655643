/** Markets that overlap: the wallet's time is that of the last purchase, and a market that may trade before it
    asks about the past. */
module OverlappingMarkets {
  import opened FixedPoint
  import opened Fees
  import opened Market
  import opened Ladders
  import opened TakerWalk
  import opened Affordability
  import opened Reconstruction
  import opened Tapes
  import opened SelfImpact
  import opened Sending
  import opened Policies
  import opened Sessions
  import opened ParentDriver
  import opened Episodes
  import opened EpisodeShape
  import opened Compound
  import opened EntryRace
  import W = Wallets

  // ---- when the past is asked about ---------------------------------------------------------

  /** The time a wallet has reached after one market's result. */
  function TimeAfter(l: W.Ledger, e: EpisodeResult): int
  {
    var buys := Buys(ByArrival(FilledOnly(e.orders)));
    if buys == [] then l.now else buys[|buys| - 1].arrival
  }

  lemma {:induction false} CreditsKeepTime(l: W.Ledger, sells: seq<SimulatedOrder>)
    ensures CreditSells(l, sells).now == l.now
  {
    if sells != [] { CreditsKeepTime(l, sells[..|sells| - 1]); }
  }

  lemma TimeReached(l: W.Ledger, end: int, resolution: Option<int>, e: EpisodeResult)
    requires DebitBuys(WithCredits(l, end, resolution, e), Buys(ByArrival(FilledOnly(e.orders)))).1 == W.Fine
    ensures DebitBuys(WithCredits(l, end, resolution, e), Buys(ByArrival(FilledOnly(e.orders)))).0.now == TimeAfter(l, e)
  {
    hide ByArrival, FilledOnly, Buys, Sells, CreditSells;
    CreditsKeepTime(l, Sells(ByArrival(FilledOnly(e.orders))));
  }

  /** After a market whose result the wallet could pay, the next one stops the run by asking about the past
      exactly when it may trigger an entry before the last purchase of the first one arrived. */
  lemma NextAsksPastIff(p: Params, realism: Realism, st: MarketState, a: Compound.Episode, b: Compound.Episode)
    requires realism.Valid() && p.Valid() && p.orderNotional.Some? && st.halt.None?
    requires var next := MarketStep(p, realism, st, a);
      && next.halt.None? && W.Equity(next.ledger) > 0 && |next.results| == |st.results| + 1
      && DebitBuys(WithCredits(st.ledger, a.tape.end, a.resolution, next.results[|st.results|]),
                   Buys(ByArrival(FilledOnly(next.results[|st.results|].orders)))).1 == W.Fine
    ensures var next := MarketStep(p, realism, st, a);
      var time := TimeAfter(st.ledger, next.results[|st.results|]);
      && (MarketStep(p, realism, next, b).halt == Some(AskedPast) <==>
            exists r <- b.tape.rows :: Opens(Budgeted(p, next.ledger), b.tape, r) && r.time < time)
  {
    hide EpisodeAfter, Finish, DebitBuys, WithCredits, ByArrival, FilledOnly, Buys, Opens, TimeAfter, PeekOf, W.Equity;
    var next := MarketStep(p, realism, st, a);
    TimeReached(st.ledger, a.tape.end, a.resolution, next.results[|st.results|]);
  }

  // ---- a list on which it is ----------------------------------------------------------------

  /** One market that shows ten shares from the start, where the only order takes 5 to arrive. */
  ghost predicate Scene(p: Params, opening: W.Ledger, m: Compound.Episode)
  {
    && m.tape == EpisodeTape([Showing(0, true)], [], [], 0, 100, 0, 10_000) && m.winner == Some(0) && m.resolution.None?
    && m.latency(0) == 5 && opening == W.OpenLedger(1_000, 0)
    && p == Params(0, 50, 500_000, 500_000, {0}, None, Some(1_000), true, 1, 0, Immediate, 0,
                   None, None, PPM, None, PPM, 0, 0, None)
  }

  lemma WalletHolds(p: Params, l: W.Ledger, time: int)
    requires l == W.OpenLedger(1_000, 0) && time >= 0 && p.orderNotional == Some(1_000)
    ensures CashAt(RunCash(p, Some(PeekOf(l)), 0), time) == Some(1_000)
    ensures SpendOf(p, Some(PeekOf(l)), 0, time) == (Some(1_000), false)
  {
    var source := PeekOf(l);
    assert source.requires(time) && source(time) == W.Peek(l, time) == 1_000;
    var run := RunCash(p, Some(source), 0);
    assert run.value.requires(time) && run.value(time) == Max(0, Max(0, source(time)) - 0);
  }

  lemma OrderFills(v: Venue, p: Params, l: W.Ledger, m: Compound.Episode, o: Order)
    requires Scene(p, l, m) && v == Venue(m.tape, TRUSTING, m.latency) && v.realism.Valid()
    requires o.side.Buy? && o.token == 0 && o.decision == 0 && o.maxSpend == Some(1_000) && !o.requireFull
    requires o.limit == Some(500_000) && o.deadline.None?
    ensures var out := SentBy(v, NO_IMPACT, o, RunCash(p, Some(PeekOf(l)), 0)).0;
      out.filled > 0 && out.notional >= 0 && out.fees >= 0 && out.rejected != Some(InsufficientAvailableCash)
  {
    hide Matched, Noted, Replayed, TakenOn, Net, MaxAffordable, RunCash, PeekOf;
    var ladder := [Level(500_000, 10)];
    WalletHolds(p, l, 5);
    assert v.tape.rows[0] == Showing(0, true) && RowAt(v.tape.rows, 0, 5) == Some(0);
    NothingTaken(v.tape.rows, 0, ladder);
    SomeFill(o, RequestOf(v.tape, v.realism, o, 5, 0, ladder), ladder, Some(1_000));
    SentBounded(v.tape, v.realism, map[], map[], o, 5, Some(1_000));
  }

  /** A run's first entry, when it fills. */
  lemma EntryFills(v: Venue, p: Params, cash: CashSource, r: Run, s: Impact, row: Row)
    requires v.realism.Valid() && p.Valid() && row.asks != [] && !r.entered && r.orders == [] && r.shares == 0
    requires EntrySent(v, p, r, s, row, cash).0.filled > 0
    ensures var after := ImmediateStep(v, p, r, s, row, cash).0;
      && after.entered && after.shares > 0 && after.token == row.token
      && after.orders == [OrderFrom(Entry, row.token, EntrySent(v, p, r, s, row, cash).0)]
      && after.orders[0].arrival == row.time + v.latency(s.draws)
  {
    hide ImmediateStep, EntrySent, CashPending;
    EntryShape(v, p, r, s, row, cash);
  }

  lemma StartsEmpty(p: Params, tape: EpisodeTape)
    ensures var r := StartOf(p, tape); r.shares == 0 == r.debited && !r.entered && r.orders == []
  {
  }

  lemma OnlyOrder(v: Venue, p: Params, opening: W.Ledger, m: Compound.Episode, r: Run, row: Row)
    requires Scene(p, opening, m) && v == Venue(m.tape, TRUSTING, m.latency) && r.debited == 0 && row == Showing(0, true)
    ensures v.realism.Valid() && p.Valid() && row.asks != []
    ensures var out := EntrySent(v, p, r, NO_IMPACT, row, Some(PeekOf(opening))).0;
      out.filled > 0 && out.notional >= 0 && out.fees >= 0
  {
    hide SentBy, RunCash, PeekOf, SpendOf, EntrySize;
    WalletHolds(p, opening, 0);
    OrderFills(v, p, opening, m, Order(Buy, 0, 0, EntrySize(p, 500_000), Some(1_000), false, Some(500_000), None));
  }

  /** The market's one order fills, at 5. */
  lemma OneBuy(p: Params, opening: W.Ledger, m: Compound.Episode, s0: Impact)
    requires Scene(p, opening, m) && s0 == NO_IMPACT
    ensures TRUSTING.Valid() && p.Valid()
    ensures var e := EpisodeAfter(Venue(m.tape, TRUSTING, m.latency), p, Some(PeekOf(opening)), s0, m.tape.rows);
      && e.status.Going? && e.run.entered && e.run.shares > 0 && e.run.token == 0
      && |e.run.orders| == 1
      && var o := e.run.orders[0]; o.kind.Entry? && o.arrival == 5 && o.filled > 0 && o.notional >= 0 && o.fees >= 0
  {
    hide EpisodeAfter, RowStep, ImmediateStep, EntrySent, PeekOf, StartOf, Showing, Opens;
    var v, cash, rows := Venue(m.tape, TRUSTING, m.latency), Some(PeekOf(opening)), m.tape.rows;
    var r := StartOf(p, m.tape);
    StartsEmpty(p, m.tape);
    OnlyOrder(v, p, opening, m, r, rows[0]);
    NoRows(v, p, cash, s0, rows);
    RowOneMore(v, p, cash, s0, rows, 0);
    FirstRow(v, p, cash, EpisodeState(r, s0, Going), rows[0]);
    EntryFills(v, p, cash, r, s0, rows[0]);
    ShownAtStart();
    assert rows[..1] == rows;
  }

  lemma ShownAtStart()
    ensures Showing(0, true).time == 0 && Showing(0, true).token == 0
  {
  }

  lemma FirstRow(v: Venue, p: Params, cash: CashSource, e: EpisodeState, row: Row)
    requires v.realism.Valid() && p.Valid() && row == Showing(0, true) && e.run == StartOf(p, v.tape) && e.status.Going?
    requires v.tape.start == 0 && v.tape.end == 100 && p.entry.Immediate? && p.entryFrom == 0 && p.entryTo == 50
    requires p.allowed == {0} && p.trigger == 500_000 == p.limit && p.maxEntries == 1
    ensures Opens(p, v.tape, row) && row.asks != []
    ensures var (after, s) := ImmediateStep(v, p, e.run, e.impact, row, cash);
      RowStep(v, p, cash, e, row) == EpisodeState(after, s, Going)
  {
    hide ImmediateStep, SequentialStep, ExitStep;
  }

  lemma AppliedAlone(orders: seq<SimulatedOrder>)
    requires |orders| == 1 && orders[0].kind.Entry? && orders[0].filled > 0
    ensures Buys(ByArrival(FilledOnly(orders))) == orders && Sells(ByArrival(FilledOnly(orders))) == []
  {
    assert orders[..0] == [] && FilledOnly(orders) == orders && ByArrival(orders) == orders;
  }

  /** The wallet ends up at 5, with the payout still to come. */
  lemma WalletAfter(l: W.Ledger, e: EpisodeResult)
    requires l == W.OpenLedger(1_000, 0) && |e.orders| == 1 && e.settledShares != 0 && e.payout > 0
    requires var o := e.orders[0]; o.kind.Entry? && o.arrival == 5 && o.filled > 0 && o.notional >= 0 && o.fees >= 0
    ensures var after := DebitBuys(WithCredits(l, 100, None, e), Buys(ByArrival(FilledOnly(e.orders)))).0;
      after.now == 5 && W.Equity(after) > 0
  {
    hide ByArrival, FilledOnly, Buys, Sells;
    AppliedAlone(e.orders);
    var funded, o := WithCredits(l, 100, None, e), e.orders[0];
    assert e.orders[..0] == [];
    assert funded.pending == [W.Credit(60_000_000_100, 1, e.payout)] && funded.available == 1_000 && funded.now == 0;
    assert W.Drained(funded, 5) == funded;
    assert W.SumOf(funded.pending) == e.payout by { assert funded.pending[1..] == []; }
    var (after, verdict) := W.Debited(funded, 5, o.notional + o.fees);
    assert after.pending == funded.pending && after.available >= 0;
  }

  /** A market list on which the compounded run asks the wallet about its past. */
  lemma RunAsksPast(p: Params, opening: W.Ledger, m: Compound.Episode)
    requires Scene(p, opening, m)
    ensures p.Valid() && TRUSTING.Valid() && MarketsAfter(p, TRUSTING, opening, [m, m]).halt == Some(AskedPast)
  {
    hide EpisodeAfter, ByArrival, FilledOnly, Sells, Buys, PeekOf, Finish, DebitBuys, WithCredits, Opens;
    var v, markets := Venue(m.tape, TRUSTING, m.latency), [m, m];
    assert Budgeted(p, opening) == p;
    NoMarkets(p, TRUSTING, opening, markets);
    MarketOneMore(p, TRUSTING, opening, markets, 0);
    OneBuy(p, opening, m, NO_IMPACT);
    var e := EpisodeAfter(v, p, Some(PeekOf(opening)), NO_IMPACT, m.tape.rows);
    Settles(e.run);
    AppliedAlone(e.run.orders);
    WalletAfter(opening, Finish(e.run, m.winner));
    MarketOneMore(p, TRUSTING, opening, markets, 1);
    var next := MarketsAfter(p, TRUSTING, opening, markets[..1]);
    OpensAgain(Budgeted(p, next.ledger), m.tape);
    assert markets[..2] == markets;
  }

  lemma Settles(r: Run)
    requires r.entered && r.shares > 0 && r.token == 0
    ensures var e := Finish(r, Some(0)); e.orders == r.orders && e.settledShares != 0 && e.payout > 0
  {
  }

  lemma OpensAgain(p: Params, tape: EpisodeTape)
    requires tape == EpisodeTape([Showing(0, true)], [], [], 0, 100, 0, 10_000)
    requires p.entryFrom == 0 && p.entryTo == 50 && p.allowed == {0} && p.trigger == 500_000 == p.limit && p.maxEntries == 1
    ensures AsksPast(p, tape, 5)
  {
    assert tape.rows[0] in tape.rows && Opens(p, tape, tape.rows[0]);
  }
}
