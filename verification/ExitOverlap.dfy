/** Exits wait for fills and for earlier exit attempts. Whether they also wait for entry orders that were
    refused depends on how fast entries follow one another. */
module ExitOverlap {
  import opened FixedPoint
  import opened Market
  import opened TakerWalk
  import opened Reconstruction
  import opened Tapes
  import opened Sending
  import opened Policies
  import opened Sessions
  import opened ParentDriver
  import opened Episodes
  import opened EpisodeShape
  import opened Pacing

  /** Every exit is decided after the arrival of every order before it. */
  ghost predicate ExitsWaitForAll(orders: seq<SimulatedOrder>)
  {
    forall i, j :: 0 <= i < j < |orders| && !orders[j].kind.Entry? ==> orders[i].arrival <= orders[j].decision
  }

  ghost predicate ArrivedBy(orders: seq<SimulatedOrder>, time: int)
  {
    forall o <- orders :: o.arrival <= time
  }

  /** Immediate entries arrive in turn; the children of a parent arrive at once. */
  ghost predicate Prompt(v: Venue, p: Params, cash: CashSource, base: nat)
  {
    if p.entry.Immediate? then InTurn(v, p, cash, base) else p.maxEntries <= 0 || AtOnce(v.latency, base)
  }

  /** The earliest instant, after a row at `time`, at which an exit can be decided: while nothing is held, that
      is when the next entry could arrive. */
  ghost function Resume(v: Venue, e: EpisodeState, time: int): int
  {
    if e.run.entered then e.run.effective else Max(e.run.nextEntry, time) + v.latency(e.impact.draws)
  }

  ghost predicate InTime(v: Venue, p: Params, cash: CashSource, base: nat, e: EpisodeState, time: int)
  {
    && Orderly(v, p, cash, base, e) && ExitsWaitForAll(e.run.orders)
    && (e.run.entered || e.run.entries < p.maxEntries ==> ArrivedBy(e.run.orders, Resume(v, e, time)))
  }

  lemma AppendWaits(orders: seq<SimulatedOrder>, more: seq<SimulatedOrder>, time: int, later: int)
    requires ArrivedBy(orders, time) && ExitsWaitForAll(orders) && time <= later
    requires (forall o <- more :: o.kind.Entry?) || (|more| == 1 && more[0].decision >= time)
    ensures ExitsWaitForAll(orders + more)
    ensures ArrivedBy(more, later) ==> ArrivedBy(orders + more, later)
  {
    var all := orders + more;
    forall i, j | 0 <= i < j < |all| && !all[j].kind.Entry? ensures all[i].arrival <= all[j].decision {
      if j < |orders| {
        assert all[i] == orders[i] && all[j] == orders[j];
      } else {
        assert all[j] in more && all[i] in orders;
      }
    }
  }

  lemma LaterArrives(orders: seq<SimulatedOrder>, time: int, later: int)
    requires ArrivedBy(orders, time) && time <= later
    ensures ArrivedBy(orders, later)
  {
  }

  lemma OneArrives(o: SimulatedOrder, time: int)
    requires o.arrival <= time
    ensures ArrivedBy([o], time)
  {
  }

  lemma ExitInTime(v: Venue, p: Params, cash: CashSource, base: nat, e: EpisodeState, bid: Option<int>, token: Token,
                   time: int, was: int)
    requires v.realism.Valid() && InTime(v, p, cash, base, e, was) && e.run.entered && e.run.effective <= time
    ensures var (after, s) := ExitStep(v, p, e.run, e.impact, bid, token, time);
      after.entered && ExitsWaitForAll(after.orders) && ArrivedBy(after.orders, after.effective)
  {
    hide ExitStep, ArrivedBy, ExitsWaitForAll, Orderly;
    ExitShape(v, p, e.run, e.impact, bid, token, time);
    var (after, s) := ExitStep(v, p, e.run, e.impact, bid, token, time);
    if after.orders != e.run.orders {
      var o := after.orders[|e.run.orders|];
      OneArrives(o, after.effective);
      AppendWaits(e.run.orders, [o], e.run.effective, after.effective);
    }
  }

  /** The order of an immediate entry that does not fill arrives no later than the next one could. */
  lemma NextInTurn(v: Venue, p: Params, cash: CashSource, base: nat, e: EpisodeState, row: Row)
    requires v.realism.Valid() && p.Valid() && Orderly(v, p, cash, base, e) && !e.run.entered && row.asks != []
    requires p.entry.Immediate? && InTurn(v, p, cash, base) && e.run.nextEntry <= row.time
    ensures var (after, s) := ImmediateStep(v, p, e.run, e.impact, row, cash);
      after.entries < p.maxEntries ==>
        row.time + v.latency(e.impact.draws) <= Max(after.nextEntry, row.time) + v.latency(s.draws)
  {
    hide ImmediateStep, EntrySent, CashPending, Ample;
    EntryShape(v, p, e.run, e.impact, row, cash);
    if Ample(p, cash, v.tape.start) { NeverCashPending(v, p, e.run, e.impact, row, cash); }
  }

  lemma EntryInTime(v: Venue, p: Params, base: nat, e: EpisodeState, row: Row, cash: CashSource, was: int)
    requires v.realism.Valid() && p.Valid() && InTime(v, p, cash, base, e, was) && !e.run.entered && row.asks != []
    requires InTurn(v, p, cash, base) && p.entry.Immediate? && e.run.entries < p.maxEntries
    requires was <= row.time && e.run.nextEntry <= row.time
    ensures var (after, s) := ImmediateStep(v, p, e.run, e.impact, row, cash);
      && ExitsWaitForAll(after.orders)
      && (after.entered || after.entries < p.maxEntries ==>
            ArrivedBy(after.orders, Resume(v, EpisodeState(after, s, Going), row.time)))
  {
    hide ImmediateStep, ArrivedBy, ExitsWaitForAll, EntrySent, Ample, InTurn, Orderly, CashPending;
    EntryShape(v, p, e.run, e.impact, row, cash);
    NextInTurn(v, p, cash, base, e, row);
    var o := OrderFrom(Entry, row.token, EntrySent(v, p, e.run, e.impact, row, cash).0);
    var (after, s) := ImmediateStep(v, p, e.run, e.impact, row, cash);
    var later := Max(Resume(v, EpisodeState(after, s, Going), row.time), o.arrival);
    OneArrives(o, later);
    AppendWaits(e.run.orders, [o], Resume(v, e, was), later);
  }

  lemma ParentInTime(v: Venue, p: Params, base: nat, e: EpisodeState, row: Row, cash: CashSource, was: int)
    requires v.realism.Valid() && p.Valid() && InTime(v, p, cash, base, e, was) && !e.run.entered
    requires row.asks != [] && row.asks[0].price > 0 && row.time < DeadlineOf(v, p, row.time)
    requires AtOnce(v.latency, base) && p.entry.Sequential? && e.run.entries < p.maxEntries
    requires was <= row.time && e.run.nextEntry <= row.time
    requires SequentialStep(v, p, e.run, e.impact, row, cash).Some?
    ensures var (after, s) := SequentialStep(v, p, e.run, e.impact, row, cash).value;
      ExitsWaitForAll(after.orders) && ArrivedBy(after.orders, Resume(v, EpisodeState(after, s, Going), row.time))
  {
    hide SequentialStep, ArrivedBy, ExitsWaitForAll, ParentAfter, OffsetsOf;
    ParentEntryShape(v, p, e.run, e.impact, row, cash);
    var parent := ParentOf(v, p, e.run, row, cash);
    var source := RunCash(p, cash, e.run.debited);
    var outcomes := ParentAfter(v, parent, source, e.impact, OffsetsOf(v, parent)).outcomes;
    ParentShape(v, parent, source, e.impact, OffsetsOf(v, parent));
    ChildrenInTime(v, base, e.impact.draws, parent, outcomes);
    var (after, s) := SequentialStep(v, p, e.run, e.impact, row, cash).value;
    LaterArrives(OrdersFrom(row.token, outcomes), parent.deadline, Resume(v, EpisodeState(after, s, Going), row.time));
    AppendWaits(e.run.orders, OrdersFrom(row.token, outcomes), Resume(v, e, was), Resume(v, EpisodeState(after, s, Going), row.time));
  }

  lemma ChildrenInTime(v: Venue, base: nat, draws: nat, p: Parent, outcomes: seq<Outcome>)
    requires AtOnce(v.latency, base) && base <= draws && p.decision < p.deadline
    requires forall o <- outcomes :: ChildShape(v, p, draws, OffsetsOf(v, p), o)
    ensures ArrivedBy(OrdersFrom(p.token, outcomes), p.deadline) && forall o <- OrdersFrom(p.token, outcomes) :: o.kind.Entry?
  {
    hide DecisionOffsets;
    var orders := OrdersFrom(p.token, outcomes);
    forall o | o in orders ensures o.arrival <= p.deadline && o.kind.Entry? {
      var i :| 0 <= i < |orders| && orders[i] == o;
      assert ChildShape(v, p, draws, OffsetsOf(v, p), outcomes[i]);
      var x :| x in OffsetsOf(v, p) && outcomes[i].decision == p.decision + x;
      OffsetsWithin(v.tape, p.token, p.decision, p.deadline - p.decision, x);
    }
  }

  lemma RowInTime(v: Venue, p: Params, cash: CashSource, base: nat, e: EpisodeState, row: Row, was: int)
    requires v.realism.Valid() && p.Valid() && Prompt(v, p, cash, base) && InTime(v, p, cash, base, e, was) && was <= row.time
    ensures InTime(v, p, cash, base, RowStep(v, p, cash, e, row), row.time)
  {
    hide ExitStep, ImmediateStep, SequentialStep, ArrivedBy, ExitsWaitForAll, Ample, AtOnce, InTurn;
    RowOrderly(v, p, cash, base, e, row);
    var r := e.run;
    if r.entered || r.entries < p.maxEntries { LaterArrives(r.orders, Resume(v, e, was), Resume(v, e, row.time)); }
    if e.status.Going? && row.time <= v.tape.end {
      if r.shares > 0 && row.token == r.token && row.time >= r.effective {
        var bid: Option<int> := if row.bids == [] then None else Some(row.bids[0].price);
        ExitInTime(v, p, cash, base, e, bid, row.token, row.time, was);
      } else if r.shares <= 0 && Triggers(p, r, row) && row.time <= v.tape.start + p.entryTo {
        if p.entry.Immediate? {
          EntryInTime(v, p, base, e, row, cash, was);
        } else if row.time < DeadlineOf(v, p, row.time) && SequentialStep(v, p, e.run, e.impact, row, cash).Some? {
          ParentInTime(v, p, base, e, row, cash, was);
        }
      }
    }
  }

  /** When entries arrive in turn, every exit of every run is decided after the arrival of every order before
      it. */
  lemma {:induction false} ExitsWaitInTurn(v: Venue, p: Params, cash: CashSource, start: Impact, rows: seq<Row>)
    requires v.realism.Valid() && p.Valid() && Prompt(v, p, cash, start.draws) && InTimeOrder(rows)
    ensures ExitsWaitForAll(EpisodeAfter(v, p, cash, start, rows).run.orders)
    ensures rows != [] ==> InTime(v, p, cash, start.draws, EpisodeAfter(v, p, cash, start, rows), rows[|rows| - 1].time)
  {
    hide RowStep, Prompt;
    if rows != [] {
      var init, row := rows[..|rows| - 1], rows[|rows| - 1];
      ExitsWaitInTurn(v, p, cash, start, init);
      StartOrderly(v, p, cash, start);
      var e := EpisodeAfter(v, p, cash, start, init);
      var was := if init == [] then row.time else init[|init| - 1].time;
      assert InTime(v, p, cash, start.draws, e, was);
      RowInTime(v, p, cash, start.draws, e, row, was);
    }
  }
}
