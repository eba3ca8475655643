/** A parent's own child decided at its deadline arrives past it, and an exit does not wait for it. */
module ParentRace {
  import opened FixedPoint
  import opened Fees
  import opened Market
  import opened Ladders
  import opened TakerWalk
  import opened Affordability
  import opened Reconstruction
  import opened Tapes
  import opened SelfImpact
  import opened Sending
  import opened Policies
  import opened Sessions
  import opened ParentDriver
  import opened Episodes
  import opened EpisodeShape
  import opened Pacing
  import opened ExitOverlap
  import opened TapeForesight

  function FiveAt(time: int): Row { Row(time, 0, SnapshotRow, true, [Level(400_000, 5)], [Level(500_000, 5)]) }

  /** Five shares on either side, restated at 1. A parent of ten sends five at once and the rest at its
      deadline, 1. The first child arrives at once, the second some time after the deadline. */
  ghost predicate Scene(v: Venue, p: Params)
  {
    && v.tape == EpisodeTape([FiveAt(0), FiveAt(1)], [], [], 0, 3, 0, 10_000)
    && v.realism == Realism(0, PPM, None, None, None, true, None, None, FeeConfig(true, false, 0, 1, 0, 0, HalfUp))
    && v.latency(0) == 0 && v.latency(1) > 0
    && p == Params(0, 1, 500_000, 500_000, {0}, Some(10), None, true, 1, 0, Sequential(Twap(1, Limits(0, None, PPM, 0))), 1,
                   Some(450_000), None, PPM, None, PPM, 0, 0, None)
  }

  const CASH: int := 0x7FFF_FFFF_FFFF_FFFF

  function ParentIn(p: Params): Parent
    requires p.entry.Sequential?
  {
    Parent(0, 0, 1, 10, 500_000, Some(500_000), None, p.entry.policy)
  }

  lemma CashHere(p: Params, time: int)
    requires p.orderNotional.None?
    ensures CashAt(RunCash(p, None, 0), time) == Some(CASH) && SpendOf(p, None, 0, time) == (None, false)
  {
    var source := RunCash(p, None, 0);
    assert source.value.requires(time) && source.value(time) == Max(0, CASH - 0);
  }

  lemma TheParent(v: Venue, p: Params, r: Run, row: Row)
    requires Scene(v, p) && row == FiveAt(0) && r.debited == 0
    ensures v.realism.Valid() && p.Valid() && DeadlineOf(v, p, 0) == 1 && ParentOf(v, p, r, row, None) == ParentIn(p)
    ensures PlanOf(ParentIn(p)).Valid() && ParentIn(p).policy.Valid() && SessionCash(ParentIn(p), RunCash(p, None, 0)) == CASH
    ensures OffsetsOf(v, ParentIn(p)) == [0, 1]
  {
    hide RunCash, SpendOf, DecisionOffsets;
    CashHere(p, 0);
    CashHere(p, 1);
    TwoOffsets(v.tape);
    OffsetsIncrease(v, ParentIn(p));
    TwoIncreasing(OffsetsOf(v, ParentIn(p)));
  }

  lemma TwoOffsets(tape: EpisodeTape)
    requires tape == EpisodeTape([FiveAt(0), FiveAt(1)], [], [], 0, 3, 0, 10_000)
    ensures DecisionOffsets(tape, 0, 0, 1) == {0, 1}
  {
  }

  lemma TwoIncreasing(xs: seq<nat>)
    requires Increasing(xs) && forall x :: x in xs <==> x == 0 || x == 1
    ensures xs == [0, 1]
  {
    assert 0 in xs && 1 in xs;
    assert forall i :: 0 <= i < |xs| ==> xs[i] in xs;
    assert |xs| >= 2;
    assert xs[0] == 0 && xs[1] == 1;
    assert xs[|xs| - 1] in xs;
  }

  // ---- the two turns ------------------------------------------------------------------------

  /** With five on offer and at least five left, the policy asks for five. */
  lemma AsksFive(p: Params, s: ExecutionState)
    requires p.entry == Sequential(Twap(1, Limits(0, None, PPM, 0))) && s.plan == PlanOf(ParentIn(p)) && 0 <= s.now <= 1
    requires (s.filled == 0 || s.filled == 5) && s.cash >= 10 && s.asks == [Level(500_000, 5)] && s.minimum == 0
    requires s.lastAction.Some? ==> s.now == 1
    ensures p.entry.policy.Valid() && s.plan.Valid() && Policies.Decide(p.entry.policy, s) == TakerSlice(5)
  {
    hide TwapScheduled, CashAffordable, PpmOf, FlowTarget, PovFloor, AdverseMultiplier, Executable;
    AllDue(s.plan, s.now);
    FiveOnOffer(s.asks);
    Affords(p.entry.policy.limits, s);
  }

  lemma AllDue(plan: ParentPlan, now: int)
    requires plan.Valid() && plan.target == 10 && plan.start == 0 && plan.deadline == 1 && 0 <= now <= 1
    ensures TwapScheduled(1, plan, now) == 10
  {
    assert Slot(1, plan, now) == 1;
    CeilDivExact(10, 1);
  }

  lemma FiveOnOffer(asks: Ladder)
    requires asks == [Level(500_000, 5)]
    ensures Executable(Buy, Some(500_000), asks) == asks && Depth(asks) == 5 && PpmOf(5, PPM) == 5
  {
    assert asks[1..] == [];
  }

  lemma Affords(limits: Limits, s: ExecutionState)
    requires limits.feeReservePpm == 0 && s.cash >= 10 && s.plan.side.Buy? && s.plan.limit == Some(500_000)
    requires s.asks == [Level(500_000, 5)]
    ensures CashAffordable(limits, s) >= 10
  {
    FiveOnOffer(s.asks);
    hide Executable;
    DivGe(s.cash * SCALE * PPM, 500_000 * PPM, 10);
  }

  /** A buy of five takes the five that are shown. */
  lemma FiveFill(r: Realism, o: Order, q: Request, ladder: Ladder, cash: Option<int>)
    requires r == Realism(0, PPM, None, None, None, true, None, None, FeeConfig(true, false, 0, 1, 0, 0, HalfUp))
    requires ladder == [Level(500_000, 5)] && cash.Some? && cash.value >= 3
    requires o.side.Buy? && o.maxSpend.None? && !o.requireFull
    requires q.side.Buy? && q.size == 5 && q.limit == Some(500_000) && q.realisedVolume.None? && q.minimum == 0
    ensures r.Valid() && Matched(r, o, q, ladder, cash).filled == 5 && Matched(r, o, q, ladder, cash).notional == 3
    ensures Matched(r, o, q, ladder, cash).fees == 0 && TallyOf(Matched(r, o, q, ladder, cash).slices).size == 5
  {
    hide CutAt, CutSize;
    assert Eligible(r, q, ladder) == ladder && ladder[1..] == [];
    GreedyNothing(r, [], 2);
    var slice := FillSlice(r.fee, 500_000, 5, 1);
    assert Greedy(r, ladder, 5, 1) == [slice];
    assert [slice][..0] == [] && slice.notional == 3 && slice.fee == 0;
    TrimTotals(r.fee, [slice], Max(0, cash.value));
    assert Trim(r.fee, [slice], Max(0, cash.value)) == [slice];
  }

  lemma FirstSent(v: Venue, p: Params, s: Impact, o: Order, cash: CashSource)
    requires Scene(v, p) && v.realism.Valid() && s.record == map[] && s.draws == 0 && (0 in s.cursor ==> s.cursor[0] == 0)
    requires o == Order(Buy, 0, 0, 5, None, false, Some(500_000), Some(1)) && CashAt(cash, 0) == Some(CASH)
    ensures var (out, s') := SentBy(v, s, o, cash);
      && out.filled == 5 && out.notional == 3 && out.fees == 0 && TallyOf(out.slices).size == 5 && out.arrival == 0 == out.decision
      && s'.draws == 1 && (0 in s'.cursor ==> s'.cursor[0] == 0)
  {
    hide Matched, Replayed, Noted, TakenOn, Net;
    var ladder := [Level(500_000, 5)];
    SentShape(v, s, o, cash);
    assert v.tape.rows[0] == FiveAt(0) && RowAt(v.tape.rows, 0, 0) == Some(0);
    NothingRecorded(v.tape.rows, s.cursor, ladder);
    FiveFill(v.realism, o, RequestOf(v.tape, v.realism, o, 0, 0, ladder), ladder, Some(CASH));
  }

  lemma NothingRecorded(rows: seq<Row>, cursor: map<Token, nat>, ladder: Ladder)
    requires |rows| == 2 && (0 in cursor ==> cursor[0] == 0) && Positive(ladder)
    ensures Net(ladder, TakenOn(Reconciled(map[], cursor, rows, 0, 0), 0, Sell)) == ladder
  {
    NothingTaken(rows, 0, ladder);
  }

  /** A snapshot forgets what was taken before it. */
  lemma Restated(rows: seq<Row>, record: Record, cursor: map<Token, nat>, ladder: Ladder)
    requires rows == [FiveAt(0), FiveAt(1)] && (0 in cursor ==> cursor[0] == 0) && Positive(ladder)
    ensures Net(ladder, TakenOn(Reconciled(record, cursor, rows, 0, 1), 0, Sell)) == ladder
  {
    var lo := if 0 in cursor then cursor[0] + 1 else 0;
    var before := Replayed(record, rows, 0, lo, 1);
    assert Reconciled(record, cursor, rows, 0, 1) == Forget(before, 0, SnapshotRow);
    assert TakenOn(Forget(before, 0, SnapshotRow), 0, Sell) == map[];
    NetOfNothing(ladder, map[]);
  }

  lemma FirstTurn(v: Venue, p: Params, st: ParentState)
    requires Scene(v, p) && v.realism.Valid() && p.entry.policy.Valid() && PlanOf(ParentIn(p)).Valid()
    requires st == ParentState(SessionState(CASH, 0, 0, [], None, None, 0, None), NO_IMPACT, [])
    ensures var after := ParentStep(v, ParentIn(p), RunCash(p, None, 0), st, 0);
      && |after.outcomes| == 1 && after.outcomes[0].filled == 5
      && after.session.filled == 5 && after.session.cash == CASH - 3 && after.session.notBefore == 0 && after.session.pending.None?
      && after.session.lastAction == Some(0) && after.impact.draws == 1 && (0 in after.impact.cursor ==> after.impact.cursor[0] == 0)
  {
    hide Policies.Decide, Net, TakenOn, SentBy, ChildCash, RunCash, PublicVolume, Replayed;
    var parent, cash := ParentIn(p), RunCash(p, None, 0);
    assert v.tape.rows[0] == FiveAt(0) && RowAt(v.tape.rows, 0, 0) == Some(0);
    NothingTaken(v.tape.rows, 0, [Level(500_000, 5)]);
    Untouched(v.tape.rows, 1);
    AsksFive(p, SeenAt(v, parent, st, 0, 0));
    ChildCashHere(p, CASH, 0);
    FirstSent(v, p, Refreshed(v, parent, st.impact, 0), ChildOrder(parent, 0, 5), ChildCash(cash, None, CASH, 0));
  }

  lemma ChildCashHere(p: Params, sessionCash: int, spent: int)
    requires p.orderNotional.None? && sessionCash == CASH && spent == 0
    ensures CashAt(ChildCash(RunCash(p, None, 0), None, sessionCash, spent), 0) == Some(CASH)
  {
    CashHere(p, 0);
    var source := RunCash(p, None, 0);
    assert source.value.requires(0) && source.value(0) == CASH;
    var child := ChildCash(source, None, sessionCash, spent);
    assert child.value.requires(0) && child.value(0) == Min(sessionCash, Max(0, Max(0, source.value(0)) - spent));
  }

  /** At the deadline the rest is sent, too late to fill. */
  lemma SecondTurn(v: Venue, p: Params, st: ParentState)
    requires Scene(v, p) && v.realism.Valid() && p.entry.policy.Valid() && PlanOf(ParentIn(p)).Valid()
    requires st.session.filled == 5 && st.session.cash == CASH - 3 && st.session.notBefore == 0 && st.session.pending.None?
    requires st.session.lastAction == Some(0) && st.impact.draws == 1 && (0 in st.impact.cursor ==> st.impact.cursor[0] == 0)
    ensures var after := ParentStep(v, ParentIn(p), RunCash(p, None, 0), st, 1);
      && |after.outcomes| == |st.outcomes| + 1 && after.outcomes[..|st.outcomes|] == st.outcomes
      && after.outcomes[|st.outcomes|].decision == 1 && after.outcomes[|st.outcomes|].arrival == 1 + v.latency(1)
      && after.outcomes[|st.outcomes|].filled == 0
  {
    hide Policies.Decide, Net, TakenOn, ChildCash, RunCash, PublicVolume, Reconciled, RowAt;
    var parent, cash := ParentIn(p), RunCash(p, None, 0);
    LastRow(v.tape.rows);
    Restated(v.tape.rows, st.impact.record, st.impact.cursor, [Level(500_000, 5)]);
    AsksFive(p, SeenAt(v, parent, st, 1, 1));
    TurnShape(v, parent, cash, st, 1, 1);
  }

  lemma LastRow(rows: seq<Row>)
    requires rows == [FiveAt(0), FiveAt(1)]
    ensures RowAt(rows, 0, 1) == Some(1)
  {
  }

  // ---- the run ------------------------------------------------------------------------------

  lemma BothChildren(v: Venue, p: Params, s0: Impact)
    requires Scene(v, p) && v.realism.Valid() && p.entry.policy.Valid() && PlanOf(ParentIn(p)).Valid() && s0 == NO_IMPACT
    requires SessionCash(ParentIn(p), RunCash(p, None, 0)) == CASH
    ensures var outcomes := ParentAfter(v, ParentIn(p), RunCash(p, None, 0), s0, [0, 1]).outcomes;
      && |outcomes| == 2 && FilledOf(outcomes) == 5 && outcomes[1].decision == 1 && outcomes[1].arrival == 1 + v.latency(1)
  {
    hide ParentStep, RunCash;
    var parent, cash, offsets := ParentIn(p), RunCash(p, None, 0), [0, 1];
    NoOffsets(v, parent, cash, s0, offsets);
    ParentOneMore(v, parent, cash, s0, offsets, 0);
    FirstTurn(v, p, ParentAfter(v, parent, cash, s0, offsets[..0]));
    ParentOneMore(v, parent, cash, s0, offsets, 1);
    SecondTurn(v, p, ParentAfter(v, parent, cash, s0, offsets[..1]));
    assert offsets[..2] == offsets;
    var outcomes := ParentAfter(v, parent, cash, s0, offsets).outcomes;
    assert outcomes[..1] == [outcomes[0]];
    OneOutcome(0, outcomes[0]);
  }

  /** A row that triggers a parent. */
  lemma ParentRow(v: Venue, p: Params, cash: CashSource, e: EpisodeState, row: Row)
    requires v.realism.Valid() && p.Valid() && p.entry.Sequential? && e.status.Going? && e.run.shares == 0
    requires Opens(p, v.tape, row) && e.run == StartOf(p, v.tape) && row.asks[0].price > 0 && row.time < DeadlineOf(v, p, row.time)
    requires SequentialStep(v, p, e.run, e.impact, row, cash).Some?
    ensures var (after, s) := SequentialStep(v, p, e.run, e.impact, row, cash).value;
      RowStep(v, p, cash, e, row) == EpisodeState(after, s, Going)
  {
    hide SequentialStep, ImmediateStep, ExitStep, DeadlineOf;
  }

  lemma FirstOpens(v: Venue, p: Params, row: Row)
    requires Scene(v, p) && row == FiveAt(0)
    ensures Opens(p, v.tape, row) && row.asks[0].price > 0 && row.time == 0 < DeadlineOf(v, p, 0)
  {
  }

  lemma Enters(v: Venue, p: Params, e: EpisodeState, row: Row)
    requires Scene(v, p) && v.realism.Valid() && p.Valid() && row == FiveAt(0) && e == EpisodeState(StartOf(p, v.tape), NO_IMPACT, Going)
    ensures var after := RowStep(v, p, None, e, row);
      && after.status.Going? && after.run.shares == 5 && after.run.token == 0 && after.run.effective == 1
      && !after.run.stopActive && |after.run.orders| == 2 && after.run.orders[1].kind.Entry?
      && after.run.orders[1].arrival == 1 + v.latency(1)
  {
    hide RowStep, SequentialStep, Opens, DeadlineOf, StartOf, Scene, ParentOf, ParentAfter, OffsetsOf, RunCash, FilledOf;
    FirstOpens(v, p, row);
    StartsEmpty(p, v.tape);
    SceneSequential(v, p);
    TheParent(v, p, e.run, row);
    BothChildren(v, p, NO_IMPACT);
    ParentEnters(v, p, None, e.run, NO_IMPACT, row);
    ParentRow(v, p, None, e, row);
  }

  lemma StartsEmpty(p: Params, tape: EpisodeTape)
    ensures var r := StartOf(p, tape); r.shares == 0 == r.debited && !r.entered && !r.stopActive && r.orders == []
  {
  }

  /** A parent with two children, of which the first filled. */
  lemma ParentEnters(v: Venue, p: Params, cash: CashSource, r: Run, s: Impact, row: Row)
    requires v.realism.Valid() && p.Valid() && p.entry.Sequential? && row.asks != [] && row.asks[0].price > 0
    requires row.time < DeadlineOf(v, p, row.time) && !r.entered && r.orders == [] && ParentOf(v, p, r, row, cash).target > 0
    requires var parent := ParentOf(v, p, r, row, cash);
      && parent.decision < parent.deadline && PlanOf(parent).Valid() && parent.policy.Valid()
      && var outcomes := ParentAfter(v, parent, RunCash(p, cash, r.debited), s, OffsetsOf(v, parent)).outcomes;
      |outcomes| == 2 && FilledOf(outcomes) > 0
    ensures SequentialStep(v, p, r, s, row, cash).Some?
    ensures var parent := ParentOf(v, p, r, row, cash);
      var outcomes := ParentAfter(v, parent, RunCash(p, cash, r.debited), s, OffsetsOf(v, parent)).outcomes;
      var after := SequentialStep(v, p, r, s, row, cash).value.0;
      && after.shares == FilledOf(outcomes) && after.token == row.token && after.effective == DeadlineOf(v, p, row.time)
      && after.stopActive == r.stopActive
      && |after.orders| == 2 && after.orders[1].kind.Entry? && after.orders[1].arrival == outcomes[1].arrival
  {
    hide SequentialStep, ParentAfter, RunCash, OffsetsOf, ParentOf, DeadlineOf, FilledOf;
    EntrySteps(v, p, r, s, row, cash);
    ParentEntryShape(v, p, r, s, row, cash);
  }

  lemma SceneSequential(v: Venue, p: Params)
    requires Scene(v, p)
    ensures p.entry.Sequential? && p.orderNotional.None?
  {
  }

  lemma Stops(v: Venue, p: Params, e: EpisodeState, row: Row)
    requires Scene(v, p) && v.realism.Valid() && p.Valid() && row == FiveAt(1) && e.status.Going?
    requires e.run.shares == 5 && e.run.token == 0 && e.run.effective == 1 && !e.run.stopActive
    ensures var orders := RowStep(v, p, None, e, row).run.orders;
      && |orders| == |e.run.orders| + 1 && orders[..|e.run.orders|] == e.run.orders
      && orders[|e.run.orders|].kind.StopLoss? && orders[|e.run.orders|].decision == 1
  {
    hide Sent, ImmediateStep, SequentialStep;
    assert ChooseExit(p, v.tape, e.run, Some(400_000), 1) == Some((StopLoss, 5));
    SentShape(v, e.impact, Order(Sell, 0, 1, 5, None, false, None, None), None);
  }

  /** However little later than the deadline the second child arrives, the stop does not wait for it. */
  lemma ChildIsOvertaken(v: Venue, p: Params, cash: CashSource, s0: Impact)
    requires Scene(v, p) && cash.None? && s0 == NO_IMPACT
    ensures v.realism.Valid() && p.Valid() && InTimeOrder(v.tape.rows)
    ensures var orders := EpisodeAfter(v, p, cash, s0, v.tape.rows).run.orders;
      && |orders| == 3 && orders[1].kind.Entry? && orders[2].kind.StopLoss? && orders[2].decision < orders[1].arrival
      && !ExitsWaitForAll(orders)
  {
    hide EpisodeAfter, RowStep, StartOf;
    var rows := v.tape.rows;
    NoRows(v, p, cash, s0, rows);
    RowOneMore(v, p, cash, s0, rows, 0);
    Enters(v, p, EpisodeState(StartOf(p, v.tape), s0, Going), rows[0]);
    RowOneMore(v, p, cash, s0, rows, 1);
    var e := EpisodeAfter(v, p, cash, s0, rows[..1]);
    Stops(v, p, e, rows[1]);
    assert rows[..2] == rows;
    var orders := EpisodeAfter(v, p, cash, s0, rows).run.orders;
    assert orders[1] == orders[..2][1] == e.run.orders[1];
  }
}
