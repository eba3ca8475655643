/** What one step of an episode can do to its list of orders. */
module EpisodeShape {
  import opened FixedPoint
  import opened Market
  import opened TakerWalk
  import opened Affordability
  import opened Reconstruction
  import opened Tapes
  import opened Sending
  import opened Policies
  import opened Sessions
  import opened ParentDriver
  import opened Episodes

  /** An order arrives the next latency after its decision, whatever becomes of it. */
  lemma SentShape(v: Venue, s: Impact, o: Order, cash: CashSource)
    requires v.realism.Valid()
    ensures var (outcome, after) := SentBy(v, s, o, cash);
      && outcome.decision == o.decision && outcome.arrival == o.decision + v.latency(s.draws) && after.draws == s.draws + 1
      && outcome.filled >= 0 && (o.maxSpend.None? ==> outcome.requested == o.shares)
  {
    hide Sent;
    var arrival := o.decision + v.latency(s.draws);
    SentBounded(v.tape, v.realism, s.record, s.cursor, o, arrival, CashAt(cash, arrival));
  }

  // ---- parents ------------------------------------------------------------------------------

  /** Child `o` was decided at one of the offsets and arrives one of the latencies from `draws` on later. */
  ghost predicate ChildShape(v: Venue, p: Parent, draws: nat, offsets: seq<nat>, o: Outcome)
  {
    && (exists x <- offsets :: o.decision == p.decision + x)
    && (exists n: nat :: draws <= n && o.arrival == o.decision + v.latency(n))
    && o.filled >= 0
  }

  /** A turn that sends a child adds exactly its outcome, decided then. */
  lemma TurnShape(v: Venue, p: Parent, cash: CashSource, st: ParentState, now: int, row: nat)
    requires v.realism.Valid() && p.policy.Valid() && PlanOf(p).Valid() && row < |v.tape.rows|
    ensures var action, after := ActionAt(v, p, st, now, row), TurnOf(v, p, cash, st, now, row);
      if action.Wait? then
        after.outcomes == st.outcomes && after.session.notBefore == st.session.notBefore && after.impact.draws == st.impact.draws
      else
        var o := ChildSent(v, p, cash, st, now, row, action.size).0;
        && after.outcomes == st.outcomes + [o] && o.decision == now && o.arrival == now + v.latency(st.impact.draws)
        && after.session.notBefore >= o.arrival && after.impact.draws == st.impact.draws + 1 && o.filled >= 0
  {
    hide SentBy, ActionAt, ChildCash;
    var action := ActionAt(v, p, st, now, row);
    if action.TakerSlice? {
      SentShape(v, Refreshed(v, p, st.impact, row), ChildOrder(p, now, action.size),
        ChildCash(cash, p.maxSpend, st.session.cash, CostOf(st.outcomes)));
    }
  }

  lemma StepShape(v: Venue, p: Parent, cash: CashSource, st: ParentState, now: int)
    requires v.realism.Valid() && p.policy.Valid() && PlanOf(p).Valid()
    ensures ParentStep(v, p, cash, st, now).impact.draws >= st.impact.draws
    ensures var after := ParentStep(v, p, cash, st, now);
      || after.outcomes == st.outcomes
      || (|after.outcomes| == |st.outcomes| + 1 && after.outcomes[..|st.outcomes|] == st.outcomes
          && after.outcomes[|st.outcomes|].decision == now
          && after.outcomes[|st.outcomes|].arrival == now + v.latency(st.impact.draws)
          && after.outcomes[|st.outcomes|].filled >= 0)
  {
    hide TurnOf, UsableRow;
    var row := UsableRow(v, p, now);
    if row.Some? { TurnShape(v, p, cash, st, now, row.value); }
  }

  lemma {:induction false} ParentShape(v: Venue, p: Parent, cash: CashSource, start: Impact, offsets: seq<nat>)
    requires v.realism.Valid() && p.policy.Valid() && PlanOf(p).Valid()
    ensures ParentAfter(v, p, cash, start, offsets).impact.draws >= start.draws
    ensures forall o <- ParentAfter(v, p, cash, start, offsets).outcomes :: ChildShape(v, p, start.draws, offsets, o)
  {
    hide ParentStep;
    if offsets != [] {
      var init, x := offsets[..|offsets| - 1], offsets[|offsets| - 1];
      ParentShape(v, p, cash, start, init);
      var before, after := ParentAfter(v, p, cash, start, init), ParentAfter(v, p, cash, start, offsets);
      StepShape(v, p, cash, before, p.decision + x);
      forall o | o in after.outcomes ensures ChildShape(v, p, start.draws, offsets, o) {
        if o in before.outcomes {
          assert ChildShape(v, p, start.draws, init, o);
          var y :| y in init && o.decision == p.decision + y;
          assert y in offsets;
        } else {
          assert x in offsets;
        }
      }
    }
  }

  // ---- entries and exits --------------------------------------------------------------------

  /** `o` is an exit added at `time`, and no further decision comes before it arrives. */
  predicate ExitAdded(r: Run, after: Run, o: SimulatedOrder, time: int, arrival: int)
  {
    && after.orders == r.orders + [o] && o.decision == time && o.arrival == arrival && !o.kind.Entry?
    && after.effective >= r.effective && after.effective >= arrival && after.entered == r.entered
    && after.nextEntry == r.nextEntry && after.debited == r.debited && after.entries == r.entries
  }

  /** An exit attempt adds one exit order, decided on its row. */
  lemma ExitShape(v: Venue, p: Params, r: Run, s: Impact, bid: Option<int>, token: Token, time: int)
    requires v.realism.Valid()
    ensures var (after, s') := ExitStep(v, p, r, s, bid, token, time);
      || (after, s') == (r, s)
      || (|r.orders| < |after.orders| && ExitAdded(r, after, after.orders[|r.orders|], time, time + v.latency(s.draws)))
  {
    hide SentBy, ReasonOf;
    var choice := ChooseExit(p, v.tape, r, bid, time);
    if choice.Some? {
      var (kind, target) := choice.value;
      assert kind == StopLoss || kind == TakeProfit || kind == Flatten;
      var o := Order(Sell, token, time, target, None, false, None, None);
      SentShape(v, s, o, None);
      var order := OrderFrom(kind, token, SentBy(v, s, o, None).0);
      assert ExitAdded(r, ExitStep(v, p, r, s, bid, token, time).0, order, time, time + v.latency(s.draws));
    }
  }

  /** The order an immediate entry sends, and what came back. */
  ghost function EntrySent(v: Venue, p: Params, r: Run, s: Impact, row: Row, cash: CashSource): (Outcome, Impact)
    requires v.realism.Valid() && row.asks != [] && (p.orderShares.Some? || p.orderNotional.Some?)
  {
    var spend := SpendOf(p, cash, r.debited, row.time).0;
    SentBy(v, s,
      Order(Buy, row.token, row.time, EntrySize(p, row.asks[0].price), spend, !p.allowPartial, Some(p.limit), None),
      RunCash(p, cash, r.debited))
  }

  ghost predicate CashPending(p: Params, r: Run, row: Row, cash: CashSource, o: Outcome)
  {
    o.rejected == Some(InsufficientAvailableCash) || (SpendOf(p, cash, r.debited, row.time).1 && o.filled <= 0)
  }

  /** An immediate entry adds one entry order, decided on its row. If it fills, the position starts when it
      arrives; if it does not, the next entry waits out the cooldown, unless cash is what stopped it. */
  lemma EntryShape(v: Venue, p: Params, r: Run, s: Impact, row: Row, cash: CashSource)
    requires v.realism.Valid() && p.Valid() && row.asks != [] && !r.entered
    ensures var (o, s') := EntrySent(v, p, r, s, row, cash);
      var (after, s'') := ImmediateStep(v, p, r, s, row, cash);
      && s'' == s' && s'.draws == s.draws + 1 && after.orders == r.orders + [OrderFrom(Entry, row.token, o)]
      && after.entries == (if CashPending(p, r, row, cash, o) then r.entries else r.entries + 1)
      && o.decision == row.time && o.arrival == row.time + v.latency(s.draws)
      && after.entered == (o.filled > 0)
      && after.nextEntry == (if CashPending(p, r, row, cash, o) then r.nextEntry else row.time + p.cooldown)
      && (after.entered ==> after.shares == o.filled && after.token == row.token && after.effective == o.arrival)
      && after.stopActive == r.stopActive && after.flattenTried == r.flattenTried
      && (!after.entered ==> after.shares == r.shares && after.debited == r.debited && after.effective == r.effective)
  {
    hide SentBy, RunCash, SpendOf, EntrySize;
    var spend := SpendOf(p, cash, r.debited, row.time).0;
    var o := Order(Buy, row.token, row.time, EntrySize(p, row.asks[0].price), spend, !p.allowPartial, Some(p.limit), None);
    SentShape(v, s, o, RunCash(p, cash, r.debited));
    OneOutcome(row.token, EntrySent(v, p, r, s, row, cash).0);
  }

  lemma OneOutcome(token: Token, o: Outcome)
    ensures FilledOf([o]) == o.filled && CostOf([o]) == o.notional + o.fees && FeesOf([o]) == o.fees
    ensures OrdersFrom(token, [o]) == [OrderFrom(Entry, token, o)]
  {
    assert [o][..0] == [];
  }

  /** Cash is what stopped a parent: it was limited by cash and bought nothing, or every child was refused for it. */
  ghost predicate ParentPending(p: Params, r: Run, row: Row, cash: CashSource, outcomes: seq<Outcome>)
  {
    || (SpendOf(p, cash, r.debited, row.time).1 && FilledOf(outcomes) <= 0)
    || (outcomes != [] && forall o <- outcomes :: o.rejected == Some(InsufficientAvailableCash))
  }

  /** A sequential entry adds the orders of one parent, decided between its row and the deadline. If it
      fills, the position starts at the deadline; if not, the next entry waits until after it. */
  lemma ParentEntryShape(v: Venue, p: Params, r: Run, s: Impact, row: Row, cash: CashSource)
    requires v.realism.Valid() && p.Valid() && p.entry.Sequential? && row.asks != [] && row.asks[0].price > 0
    requires row.time < DeadlineOf(v, p, row.time) && !r.entered
    requires SequentialStep(v, p, r, s, row, cash).Some?
    ensures var parent := ParentOf(v, p, r, row, cash);
      && PlanOf(parent).Valid() && parent.policy.Valid() && parent.deadline == DeadlineOf(v, p, row.time)
      && parent.decision == row.time && parent.token == row.token && parent.policy == p.entry.policy
      && parent.benchmark == row.asks[0].price && parent.limit == Some(p.limit)
      && (p.orderShares.Some? ==> parent.target == p.orderShares.value)
      && var st := ParentAfter(v, parent, RunCash(p, cash, r.debited), s, OffsetsOf(v, parent));
      var (after, s') := SequentialStep(v, p, r, s, row, cash).value;
      && s' == st.impact && after.orders == r.orders + OrdersFrom(row.token, st.outcomes)
      && after.entered == (FilledOf(st.outcomes) > 0) && r.entries <= after.entries <= r.entries + 1
      && after.entries == (if ParentPending(p, r, row, cash, st.outcomes) then r.entries else r.entries + 1)
      && after.nextEntry == DeadlineOf(v, p, row.time) + p.cooldown
      && (after.entered ==>
            after.shares == FilledOf(st.outcomes) > 0 && after.token == row.token && after.effective == DeadlineOf(v, p, row.time))
      && after.stopActive == r.stopActive && after.flattenTried == r.flattenTried
      && (!after.entered ==> after.shares == r.shares && after.debited == r.debited && after.effective == r.effective)
  {
    hide ParentAfter, RunCash, SpendOf, MaxAffordable;
  }
}
