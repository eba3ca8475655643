/** Why each order of an episode was sent, told from the tape and the orders before it: a row triggered an entry, the
    stop, the take-profit or the flatten, or a retry of the stop was due. And no row that calls for an exit is missed. */
module OrderRules {
  import opened FixedPoint
  import opened Market
  import opened TakerWalk
  import opened Affordability
  import opened Reconstruction
  import opened Tapes
  import opened Sending
  import opened Policies
  import opened ParentDriver
  import opened Episodes
  import opened EpisodeShape

  /** Shares held after these orders. */
  function HeldAfter(orders: seq<SimulatedOrder>): int { BoughtShares(orders) - SoldShares(orders) }

  function Last(orders: seq<SimulatedOrder>): SimulatedOrder
    requires orders != []
  {
    orders[|orders| - 1]
  }

  /** Whether a row calls for an exit of this kind, after these orders. The first stop waits until it is armed and then
      for a bid at or below its price, or none at all; a further one follows a stop that left shares, an interval after
      that arrived. A take-profit is tried once, before any stop, and a flatten once. */
  ghost predicate Calls(p: Params, tape: EpisodeTape, orders: seq<SimulatedOrder>, row: Row, kind: Kind)
  {
    match kind
    case Entry => false
    case StopLoss =>
      if CountOf(orders, StopLoss) == 0 then
        && p.stop.Some? && (p.stopFrom.Some? ==> tape.start + p.stopFrom.value <= row.time)
        && (row.bids == [] || row.bids[0].price <= p.stop.value)
      else
        && orders != [] && Last(orders).kind.StopLoss? && CountOf(orders, StopLoss) <= p.retryLimit
        && Last(orders).arrival + p.retryInterval <= row.time
    case TakeProfit =>
      && p.takeProfit.Some? && CountOf(orders, TakeProfit) == 0 && CountOf(orders, StopLoss) == 0
      && row.bids != [] && row.bids[0].price >= p.takeProfit.value
    case Flatten =>
      p.flattenBefore.Some? && CountOf(orders, Flatten) == 0 && tape.end <= row.time + p.flattenBefore.value
  }

  /** A stop goes before a take-profit, and both before a flatten. */
  ghost predicate Foremost(p: Params, tape: EpisodeTape, orders: seq<SimulatedOrder>, row: Row, kind: Kind)
  {
    && Calls(p, tape, orders, row, kind)
    && (kind.TakeProfit? || kind.Flatten? ==> !Calls(p, tape, orders, row, StopLoss))
    && (kind.Flatten? ==> !Calls(p, tape, orders, row, TakeProfit))
  }

  /** `size` is this many millionths of what is held, rounded down. */
  predicate PartOf(size: int, ppm: nat, held: int)
  {
    size * PPM <= held * ppm < (size + 1) * PPM
  }

  /** What an exit offers: the first stop and the take-profit their configured part, anything else all that is held. */
  ghost predicate Offers(p: Params, orders: seq<SimulatedOrder>, kind: Kind, size: int)
  {
    if kind.StopLoss? && CountOf(orders, StopLoss) == 0 then PartOf(size, p.stopFractionPpm, HeldAfter(orders))
    else if kind.TakeProfit? then PartOf(size, p.takeProfitFractionPpm, HeldAfter(orders))
    else size == HeldAfter(orders)
  }

  /** An exit sent on this row. */
  ghost predicate ExitOn(p: Params, tape: EpisodeTape, orders: seq<SimulatedOrder>, row: Row, o: SimulatedOrder)
  {
    && Foremost(p, tape, orders, row, o.kind) && Offers(p, orders, o.kind, o.requested) && o.requested > 0
    && o.decision == row.time && o.token == row.token
  }

  /** An order of an entry that this row triggered: inside the entry window, at an ask between the trigger and the
      limit. A sequential entry ends with the window, before the market closes, and within its horizon. */
  ghost predicate EntryOn(p: Params, tape: EpisodeTape, row: Row, o: SimulatedOrder)
  {
    && o.kind.Entry? && o.token == row.token && row.token in p.allowed
    && tape.start + p.entryFrom <= row.time <= tape.start + p.entryTo
    && row.asks != [] && p.trigger <= row.asks[0].price <= p.limit
    && row.time <= o.decision
    && (p.entry.Immediate? ==> o.decision == row.time && (p.orderShares.Some? ==> o.requested == p.orderShares.value))
    && (p.entry.Sequential? ==>
          o.decision <= row.time + p.horizon && o.decision <= tape.start + p.entryTo && o.decision < tape.end)
  }

  /** Order `i` was sent because of one of these rows. */
  ghost predicate Justified(p: Params, tape: EpisodeTape, rows: seq<Row>, orders: seq<SimulatedOrder>, i: nat)
    requires i < |orders|
  {
    exists row <- rows ::
      row.time <= tape.end && (EntryOn(p, tape, row, orders[i]) || ExitOn(p, tape, orders[..i], row, orders[i]))
  }

  ghost predicate AllJustified(p: Params, tape: EpisodeTape, rows: seq<Row>, orders: seq<SimulatedOrder>)
  {
    forall i :: 0 <= i < |orders| ==> Justified(p, tape, rows, orders, i)
  }

  // ---- the flags of a run and its orders ----------------------------------------------------

  /** The flags of a run, told from its orders. */
  ghost predicate Telling(p: Params, r: Run)
  {
    && r.shares == HeldAfter(r.orders)
    && BoughtShares(r.orders) >= 0 && (r.entered <==> BoughtShares(r.orders) > 0)
    && (r.entered ==> r.orders != []) && (r.entered || r.reason.NoEntry?)
    && (r.entered ==> r.reason == (if Last(r.orders).kind.Entry? then Settlement else ReasonOf(Last(r.orders).kind)))
    && (r.takeProfitTried <==> CountOf(r.orders, TakeProfit) > 0)
    && (r.flattenTried <==> CountOf(r.orders, Flatten) > 0)
    && (r.shares > 0 ==>
          && r.stopAttempts == CountOf(r.orders, StopLoss)
          && (r.stopActive <==> CountOf(r.orders, StopLoss) > 0)
          && (r.stopActive ==> r.stopDeadline == RetryAt(p, r.orders)))
  }

  /** When the stop may be retried, if it may. */
  function RetryAt(p: Params, orders: seq<SimulatedOrder>): Option<int>
  {
    if orders != [] && Last(orders).kind.StopLoss? && CountOf(orders, StopLoss) <= p.retryLimit
    then Some(Last(orders).arrival + p.retryInterval) else None
  }

  /** Until a run has entered, it holds nothing and has only sent entries. */
  ghost predicate Fresh(p: Params, tape: EpisodeTape, r: Run)
  {
    && r.shares == 0 && !r.stopActive && r.stopAttempts == 0
    && forall k: Kind :: !k.Entry? ==> CountOf(r.orders, k) == 0
  }

  lemma PartIsFloor(ppm: nat, held: nat)
    ensures PartOf(held * ppm / PPM, ppm, held)
  {
    var size := held * ppm / PPM;
    assert held * ppm == size * PPM + held * ppm % PPM;
    assert (size + 1) * PPM == size * PPM + PPM;
  }

  lemma PartIsUnique(size: int, other: int, ppm: nat, held: int)
    requires PartOf(size, ppm, held) && PartOf(other, ppm, held)
    ensures size == other
  {
  }

  function BidOf(row: Row): Option<int> { if row.bids == [] then None else Some(row.bids[0].price) }

  /** What a run chooses on a row is the foremost exit the row calls for, unless the part of it to offer is nothing. */
  lemma ChoiceIsForemost(p: Params, tape: EpisodeTape, r: Run, row: Row, kind: Kind, size: int)
    requires p.Valid() && Telling(p, r) && r.shares > 0
    requires Foremost(p, tape, r.orders, row, kind) && Offers(p, r.orders, kind, size)
    ensures ChooseExit(p, tape, r, BidOf(row), row.time) == if size > 0 then Some((kind, size)) else None
  {
    hide HeldAfter, CountOf, PartOf;
    Floors(p, r);
    if kind.StopLoss? && CountOf(r.orders, StopLoss) == 0 {
      PartIsUnique(size, r.shares * p.stopFractionPpm / PPM, p.stopFractionPpm, r.shares);
    } else if kind.TakeProfit? {
      PartIsUnique(size, r.shares * p.takeProfitFractionPpm / PPM, p.takeProfitFractionPpm, r.shares);
    }
  }

  lemma Floors(p: Params, r: Run)
    requires r.shares > 0
    ensures PartOf(r.shares * p.stopFractionPpm / PPM, p.stopFractionPpm, r.shares)
    ensures PartOf(r.shares * p.takeProfitFractionPpm / PPM, p.takeProfitFractionPpm, r.shares)
  {
    PartIsFloor(p.stopFractionPpm, r.shares);
    PartIsFloor(p.takeProfitFractionPpm, r.shares);
  }

  lemma ChoiceIsCalledFor(p: Params, tape: EpisodeTape, r: Run, row: Row)
    requires p.Valid() && Telling(p, r) && r.shares > 0
    ensures var choice := ChooseExit(p, tape, r, BidOf(row), row.time);
      choice.Some? ==>
        && Foremost(p, tape, r.orders, row, choice.value.0) && Offers(p, r.orders, choice.value.0, choice.value.1)
        && choice.value.1 > 0
  {
    hide HeldAfter, CountOf, PartOf;
    Floors(p, r);
  }

  // ---- one row ------------------------------------------------------------------------------

  /** The order of an exit attempt. */
  lemma ExitOrder(v: Venue, p: Params, r: Run, s: Impact, bid: Option<int>, token: Token, time: int)
    returns (o: SimulatedOrder)
    requires v.realism.Valid() && ChooseExit(p, v.tape, r, bid, time).Some?
    ensures ExitStep(v, p, r, s, bid, token, time).0 == AfterExit(p, r, o, time)
    ensures var choice := ChooseExit(p, v.tape, r, bid, time).value;
      o.kind == choice.0 && o.requested == choice.1 && o.token == token && o.decision == time <= o.arrival
  {
    hide SentBy, ChooseExit;
    var (kind, target) := ChooseExit(p, v.tape, r, bid, time).value;
    var order := Order(Sell, token, time, target, None, false, None, None);
    SentShape(v, s, order, None);
    o := OrderFrom(kind, token, SentBy(v, s, order, None).0);
  }

  lemma ExitTells(p: Params, r: Run, o: SimulatedOrder)
    requires Telling(p, r) && r.shares > 0 && r.entered && !o.kind.Entry? && o.decision <= o.arrival
    ensures Telling(p, AfterExit(p, r, o, o.decision))
  {
    hide BoughtShares, SoldShares, CountOf, ReasonOf;
    OneMoreOrder(r.orders, o);
  }

  /** A row that calls for an exit of what a run holds gets it: one more order, of the foremost kind, unless the part to
      offer is nothing. */
  lemma CalledExitIsSent(v: Venue, p: Params, cash: CashSource, e: EpisodeState, row: Row, kind: Kind, size: int)
    requires v.realism.Valid() && p.Valid() && Telling(p, e.run) && e.status.Going?
    requires HeldAfter(e.run.orders) > 0 && row.token == e.run.token && e.run.effective <= row.time <= v.tape.end
    requires Foremost(p, v.tape, e.run.orders, row, kind) && Offers(p, e.run.orders, kind, size)
    ensures var was, orders := e.run.orders, RowStep(v, p, cash, e, row).run.orders;
      if size <= 0 then orders == was
      else |orders| == |was| + 1 && was <= orders && Last(orders).kind == kind && ExitOn(p, v.tape, was, row, Last(orders))
  {
    hide ChooseExit, ExitStep, HeldAfter, Foremost, Offers, ImmediateStep, SequentialStep, ReasonOf;
    ChoiceIsForemost(p, v.tape, e.run, row, kind, size);
    if size > 0 {
      var o := ExitOrder(v, p, e.run, e.impact, BidOf(row), row.token, row.time);
    } else {
      NoExit(v, p, e.run, e.impact, BidOf(row), row.token, row.time);
    }
  }

  lemma NoExit(v: Venue, p: Params, r: Run, s: Impact, bid: Option<int>, token: Token, time: int)
    requires v.realism.Valid() && ChooseExit(p, v.tape, r, bid, time).None?
    ensures ExitStep(v, p, r, s, bid, token, time) == (r, s)
  {
  }

  // ---- whole runs ---------------------------------------------------------------------------

  ghost predicate Disciplined(v: Venue, p: Params, rows: seq<Row>, e: EpisodeState)
  {
    && Telling(p, e.run) && AllJustified(p, v.tape, rows, e.run.orders)
    && (!e.run.entered ==> Fresh(p, v.tape, e.run))
    && v.tape.start + p.entryFrom <= e.run.nextEntry
    && (e.run.shares > 0 ==> e.run.entered) && (e.run.entered && e.status.Going? ==> e.run.shares > 0)
  }

  lemma MoreRows(p: Params, tape: EpisodeTape, rows: seq<Row>, row: Row, orders: seq<SimulatedOrder>)
    requires AllJustified(p, tape, rows, orders)
    ensures AllJustified(p, tape, rows + [row], orders)
  {
    hide EntryOn, ExitOn;
    forall i | 0 <= i < |orders| ensures Justified(p, tape, rows + [row], orders, i) {
      assert Justified(p, tape, rows, orders, i);
      var r :| r in rows && r.time <= tape.end && (EntryOn(p, tape, r, orders[i]) || ExitOn(p, tape, orders[..i], r, orders[i]));
      assert r in rows + [row];
    }
  }

  lemma MoreExits(p: Params, tape: EpisodeTape, rows: seq<Row>, row: Row, orders: seq<SimulatedOrder>, o: SimulatedOrder)
    requires AllJustified(p, tape, rows, orders) && row in rows && row.time <= tape.end && ExitOn(p, tape, orders, row, o)
    ensures AllJustified(p, tape, rows, orders + [o])
  {
    hide EntryOn, ExitOn;
    var all := orders + [o];
    forall i | 0 <= i < |all| ensures Justified(p, tape, rows, all, i) {
      if i < |orders| {
        assert Justified(p, tape, rows, orders, i) && all[..i] == orders[..i];
      } else {
        assert all[..i] == orders;
      }
    }
  }

  lemma MoreEntries(p: Params, tape: EpisodeTape, rows: seq<Row>, row: Row, orders: seq<SimulatedOrder>, sent: seq<SimulatedOrder>)
    requires AllJustified(p, tape, rows, orders) && row in rows && row.time <= tape.end
    requires forall o <- sent :: EntryOn(p, tape, row, o)
    ensures AllJustified(p, tape, rows, orders + sent)
  {
    hide EntryOn, ExitOn;
    var all := orders + sent;
    forall i | 0 <= i < |all| ensures Justified(p, tape, rows, all, i) {
      if i < |orders| {
        assert Justified(p, tape, rows, orders, i) && all[..i] == orders[..i];
      } else {
        assert all[i] == sent[i - |orders|] && all[i] in sent;
      }
    }
  }

  lemma ExitDisciplined(v: Venue, p: Params, rows: seq<Row>, e: EpisodeState, row: Row)
    requires v.realism.Valid() && p.Valid() && Disciplined(v, p, rows, e) && e.status.Going?
    requires e.run.shares > 0 && row in rows && row.time <= v.tape.end
    ensures var (after, s) := ExitStep(v, p, e.run, e.impact, BidOf(row), row.token, row.time);
      Disciplined(v, p, rows, EpisodeState(after, s, if after.shares <= 0 then Over else Going))
  {
    hide ChooseExit, ExitStep, HeldAfter, Foremost, Offers, AllJustified, Telling, ReasonOf, BidOf;
    if ChooseExit(p, v.tape, e.run, BidOf(row), row.time).None? {
      NoExit(v, p, e.run, e.impact, BidOf(row), row.token, row.time);
    } else {
      ChoiceIsCalledFor(p, v.tape, e.run, row);
      var o := ExitOrder(v, p, e.run, e.impact, BidOf(row), row.token, row.time);
      assert !o.kind.Entry? by { ForemostExit(p, v.tape, e.run.orders, row, o.kind); }
      ExitTells(p, e.run, o);
      MoreExits(p, v.tape, rows, row, e.run.orders, o);
    }
  }

  lemma ForemostExit(p: Params, tape: EpisodeTape, orders: seq<SimulatedOrder>, row: Row, kind: Kind)
    requires Foremost(p, tape, orders, row, kind)
    ensures !kind.Entry?
  {
  }

  lemma SomeChild(outcomes: seq<Outcome>)
    requires FilledOf(outcomes) > 0
    ensures outcomes != []
  {
  }

  /** Entries tell: they leave the exit counts alone, and a run holds what they filled. */
  lemma EntryTells(p: Params, tape: EpisodeTape, r: Run, token: Token, outcomes: seq<Outcome>, after: Run)
    requires Telling(p, r) && Fresh(p, tape, r) && FilledOf(outcomes) >= 0
    requires after.orders == r.orders + OrdersFrom(token, outcomes) && after.entered == (FilledOf(outcomes) > 0)
    requires after.shares == (if after.entered then FilledOf(outcomes) else r.shares)
    requires after.stopActive == r.stopActive && after.stopAttempts == r.stopAttempts
    requires after.takeProfitTried == r.takeProfitTried && after.flattenTried == r.flattenTried
    requires after.reason == (if after.entered then Settlement else r.reason) && !r.entered
    ensures Telling(p, after) && Fresh(p, tape, after.(shares := 0)) && (!after.entered ==> Fresh(p, tape, after))
  {
    hide BoughtShares, SoldShares, CountOf, FilledOf, ReasonOf;
    EntrySums(r.orders, token, outcomes);
    if after.entered {
      SomeChild(outcomes);
      assert Last(after.orders) == OrderFrom(Entry, token, outcomes[|outcomes| - 1]);
    }
  }

  lemma ImmediateDisciplined(v: Venue, p: Params, cash: CashSource, rows: seq<Row>, e: EpisodeState, row: Row)
    requires v.realism.Valid() && p.Valid() && p.entry.Immediate? && Disciplined(v, p, rows, e) && e.status.Going?
    requires e.run.shares <= 0 && row in rows && row.time <= v.tape.end && Triggers(p, e.run, row)
    requires row.time <= v.tape.start + p.entryTo
    ensures var (after, s) := ImmediateStep(v, p, e.run, e.impact, row, cash);
      Disciplined(v, p, rows, EpisodeState(after, s, Going))
  {
    hide ImmediateStep, EntrySent, AllJustified, Telling, CashPending;
    EntryShape(v, p, e.run, e.impact, row, cash);
    var o := EntrySent(v, p, e.run, e.impact, row, cash).0;
    EntryAsks(v, p, e.run, e.impact, row, cash);
    OneOutcome(row.token, o);
    EntryFlags(v, p, e.run, e.impact, row, cash);
    EntryTells(p, v.tape, e.run, row.token, [o], ImmediateStep(v, p, e.run, e.impact, row, cash).0);
    var order := OrderFrom(Entry, row.token, o);
    assert EntryOn(p, v.tape, row, order);
    MoreEntries(p, v.tape, rows, row, e.run.orders, [order]);
  }

  lemma EntryAsks(v: Venue, p: Params, r: Run, s: Impact, row: Row, cash: CashSource)
    requires v.realism.Valid() && p.Valid() && row.asks != []
    ensures var o := EntrySent(v, p, r, s, row, cash).0;
      && o.decision == row.time && o.filled >= 0
      && (p.orderShares.Some? ==> o.requested == p.orderShares.value)
  {
    hide SentBy, RunCash;
    var spend := SpendOf(p, cash, r.debited, row.time).0;
    SentShape(v, s,
      Order(Buy, row.token, row.time, EntrySize(p, row.asks[0].price), spend, !p.allowPartial, Some(p.limit), None),
      RunCash(p, cash, r.debited));
  }

  lemma EntryFlags(v: Venue, p: Params, r: Run, s: Impact, row: Row, cash: CashSource)
    requires v.realism.Valid() && p.Valid() && row.asks != [] && !r.entered
    ensures var after := ImmediateStep(v, p, r, s, row, cash).0;
      && after.stopAttempts == r.stopAttempts && after.takeProfitTried == r.takeProfitTried
      && after.reason == (if after.entered then Settlement else r.reason)
      && after.nextEntry >= Min(r.nextEntry, row.time)
  {
    hide SentBy, RunCash, SpendOf, EntrySize;
  }

  lemma ParentFlags(v: Venue, p: Params, r: Run, s: Impact, row: Row, cash: CashSource)
    requires v.realism.Valid() && p.Valid() && p.entry.Sequential? && row.asks != [] && row.asks[0].price > 0
    requires row.time < DeadlineOf(v, p, row.time) && SequentialStep(v, p, r, s, row, cash).Some? && !r.entered
    ensures var after := SequentialStep(v, p, r, s, row, cash).value.0;
      && after.stopAttempts == r.stopAttempts && after.takeProfitTried == r.takeProfitTried
      && after.reason == (if after.entered then Settlement else r.reason)
  {
    hide ParentAfter, RunCash, SpendOf, AllCashPending, MaxAffordable, OffsetsOf;
  }

  lemma {:induction false} NoneFilled(outcomes: seq<Outcome>)
    requires forall o <- outcomes :: o.filled >= 0
    ensures FilledOf(outcomes) >= 0
  {
    if outcomes != [] { NoneFilled(outcomes[..|outcomes| - 1]); }
  }

  lemma SequentialDisciplined(v: Venue, p: Params, cash: CashSource, rows: seq<Row>, e: EpisodeState, row: Row)
    requires v.realism.Valid() && p.Valid() && p.entry.Sequential? && Disciplined(v, p, rows, e) && e.status.Going?
    requires e.run.shares <= 0 && row in rows && row.time <= v.tape.end && Triggers(p, e.run, row)
    requires row.time <= v.tape.start + p.entryTo && row.asks[0].price > 0 && row.time < DeadlineOf(v, p, row.time)
    requires SequentialStep(v, p, e.run, e.impact, row, cash).Some?
    ensures var (after, s) := SequentialStep(v, p, e.run, e.impact, row, cash).value;
      Disciplined(v, p, rows, EpisodeState(after, s, Going))
  {
    hide SequentialStep, AllJustified, Telling, ParentAfter, OffsetsOf, RunCash, FilledOf, ChildShape;
    var (after, s) := SequentialStep(v, p, e.run, e.impact, row, cash).value;
    ParentEntryShape(v, p, e.run, e.impact, row, cash);
    ParentFlags(v, p, e.run, e.impact, row, cash);
    var parent, source := ParentOf(v, p, e.run, row, cash), RunCash(p, cash, e.run.debited);
    var outcomes := ParentAfter(v, parent, source, e.impact, OffsetsOf(v, parent)).outcomes;
    ParentShape(v, parent, source, e.impact, OffsetsOf(v, parent));
    ChildrenOn(v, p, parent, e.impact.draws, row, outcomes);
    NoneFilled(outcomes);
    EntryTells(p, v.tape, e.run, row.token, outcomes, after);
    MoreEntries(p, v.tape, rows, row, e.run.orders, OrdersFrom(row.token, outcomes));
  }

  lemma ChildrenOn(v: Venue, p: Params, parent: Parent, draws: nat, row: Row, outcomes: seq<Outcome>)
    requires p.entry.Sequential? && parent.decision == row.time < parent.deadline == DeadlineOf(v, p, row.time)
    requires row.token in p.allowed && v.tape.start + p.entryFrom <= row.time <= v.tape.start + p.entryTo
    requires row.asks != [] && p.trigger <= row.asks[0].price <= p.limit
    requires forall o <- outcomes :: ChildShape(v, parent, draws, OffsetsOf(v, parent), o)
    ensures forall o <- outcomes :: o.filled >= 0
    ensures forall o <- OrdersFrom(row.token, outcomes) :: EntryOn(p, v.tape, row, o)
  {
    hide DecisionOffsets;
    var orders := OrdersFrom(row.token, outcomes);
    forall o | o in orders ensures EntryOn(p, v.tape, row, o) {
      var i :| 0 <= i < |orders| && orders[i] == o;
      assert ChildShape(v, parent, draws, OffsetsOf(v, parent), outcomes[i]);
      var x :| x in OffsetsOf(v, parent) && outcomes[i].decision == parent.decision + x;
      OffsetsWithin(v.tape, parent.token, parent.decision, parent.deadline - parent.decision, x);
    }
  }

  lemma RowDisciplined(v: Venue, p: Params, cash: CashSource, rows: seq<Row>, e: EpisodeState, row: Row)
    requires v.realism.Valid() && p.Valid() && Disciplined(v, p, rows, e) && row in rows
    ensures Disciplined(v, p, rows, RowStep(v, p, cash, e, row))
  {
    hide ExitStep, ImmediateStep, SequentialStep, AllJustified, Telling, Fresh, DeadlineOf;
    if e.status.Going? && row.time <= v.tape.end {
      if e.run.shares > 0 && row.token == e.run.token && row.time >= e.run.effective {
        ExitDisciplined(v, p, rows, e, row);
      } else if e.run.shares <= 0 && Triggers(p, e.run, row) && row.time <= v.tape.start + p.entryTo {
        if p.entry.Immediate? {
          ImmediateDisciplined(v, p, cash, rows, e, row);
        } else if row.time < DeadlineOf(v, p, row.time) && SequentialStep(v, p, e.run, e.impact, row, cash).Some? {
          SequentialDisciplined(v, p, cash, rows, e, row);
        }
      }
    }
  }

  /** Every order of a run was sent because of a row of its tape: an entry by a row that triggered it, an exit by a row
      that called for its kind before any other and for the shares it offers, given the orders before it. */
  lemma {:induction false} OrdersAreJustified(v: Venue, p: Params, cash: CashSource, start: Impact, rows: seq<Row>)
    requires v.realism.Valid() && p.Valid()
    ensures var e := EpisodeAfter(v, p, cash, start, rows);
      Disciplined(v, p, rows, e) && AllJustified(p, v.tape, rows, e.run.orders)
  {
    hide RowStep, Telling;
    if rows == [] {
      StartTells(p, v.tape);
    } else {
      var init, row := rows[..|rows| - 1], rows[|rows| - 1];
      OrdersAreJustified(v, p, cash, start, init);
      var e := EpisodeAfter(v, p, cash, start, init);
      MoreRows(p, v.tape, init, row, e.run.orders);
      assert init + [row] == rows;
      RowDisciplined(v, p, cash, rows, e, row);
    }
  }

  lemma StartTells(p: Params, tape: EpisodeTape)
    ensures Telling(p, StartOf(p, tape)) && Fresh(p, tape, StartOf(p, tape))
  {
  }

  /** A row that triggers an entry is taken: one more order, sent at once. */
  lemma TriggerIsTaken(v: Venue, p: Params, cash: CashSource, e: EpisodeState, row: Row)
    requires v.realism.Valid() && p.Valid() && p.entry.Immediate? && e.status.Going? && e.run.shares <= 0 && !e.run.entered
    requires row.time <= v.tape.end && row.time <= v.tape.start + p.entryTo && row.token in p.allowed
    requires row.asks != [] && p.trigger <= row.asks[0].price <= p.limit
    requires e.run.nextEntry <= row.time && e.run.entries < p.maxEntries
    ensures var was, orders := e.run.orders, RowStep(v, p, cash, e, row).run.orders;
      && |orders| == |was| + 1 && was <= orders && Last(orders).kind.Entry? && Last(orders).decision == row.time
      && Last(orders).token == row.token
  {
    hide ImmediateStep, SequentialStep, ExitStep, EntrySent, CashPending;
    EntryShape(v, p, e.run, e.impact, row, cash);
  }

  /** Why a run ended, told from its orders: the last exit names the reason, and a stop that left shares is named apart. */
  ghost predicate ReasonGiven(e: EpisodeResult)
  {
    if BoughtShares(e.orders) == 0 then e.reason.NoEntry?
    else
      && e.orders != []
      && match Last(e.orders).kind
         case Entry => e.reason.Settlement?
         case StopLoss => if HeldAfter(e.orders) > 0 then e.reason.StopUnfilledHeld? else e.reason.StoppedOut?
         case TakeProfit => e.reason.TookProfit?
         case Flatten => e.reason.Flattened?
  }

  lemma ReasonIsGiven(v: Venue, p: Params, cash: CashSource, start: Impact, rows: seq<Row>,
                                         winner: Option<Token>)
    requires v.realism.Valid() && p.Valid()
    ensures ReasonGiven(Finish(EpisodeAfter(v, p, cash, start, rows).run, winner))
  {
    hide EpisodeAfter, AllJustified, BoughtShares, SoldShares, CountOf, RetryAt;
    OrdersAreJustified(v, p, cash, start, rows);
  }
}
