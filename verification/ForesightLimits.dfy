/** Where a share-sized parent knows more than it could: it is sized from the wallet's cash at its deadline. */
module ForesightLimits {
  import opened FixedPoint
  import opened Fees
  import opened Market
  import opened Ladders
  import opened TakerWalk
  import opened Affordability
  import opened Reconstruction
  import opened Tapes
  import opened SelfImpact
  import opened Sending
  import opened Policies
  import opened Sessions
  import opened ParentDriver
  import opened Episodes
  import opened EpisodeShape
  import opened TapeForesight

  /** Nothing is affordable with nothing. */
  lemma NoCashNoChild(policy: Policy, s: ExecutionState)
    requires policy.Valid() && s.plan.Valid() && s.plan.side.Buy? && s.cash == 0
    ensures Policies.Decide(policy, s).Wait?
  {
    hide TwapScheduled, FlowTarget, PovFloor, AdverseMultiplier, Blocked, Depth, Executable;
    NothingAffordable(policy.limits, s);
  }

  lemma NothingAffordable(limits: Limits, s: ExecutionState)
    requires s.cash == 0
    ensures CashAffordable(limits, s) <= 0
  {
    var levels := Executable(s.plan.side, s.plan.limit, s.TakerLadder());
    if levels != [] {
      var last: int := levels[|levels| - 1].price;
      var worst := if s.plan.limit.Some? then Max(last, s.plan.limit.value) else last;
      if worst > 0 {
        MulLe(1, worst, PPM + limits.feeReservePpm);
        DivBracket(0, worst * (PPM + limits.feeReservePpm), 0);
      }
    }
  }

  /** A share-sized parent whose wallet is empty at its deadline never sends a child, whatever the wallet holds
      before. */
  lemma {:induction false} EmptyAtDeadlineSendsNothing(v: Venue, p: Parent, cash: CashSource, s: Impact, offsets: seq<nat>)
    requires v.realism.Valid() && p.policy.Valid() && PlanOf(p).Valid() && SessionCash(p, cash) == 0
    ensures var st := ParentAfter(v, p, cash, s, offsets); st.outcomes == [] && st.session.cash == 0
  {
    hide Policies.Decide, Refreshed, UsableRow, PublicVolume, Net, TakenOn;
    if offsets != [] {
      var init, now := offsets[..|offsets| - 1], p.decision + offsets[|offsets| - 1];
      EmptyAtDeadlineSendsNothing(v, p, cash, s, init);
      var st, row := ParentAfter(v, p, cash, s, init), UsableRow(v, p, now);
      if row.Some? { NoCashNoChild(p.policy, SeenAt(v, p, st, now, row.value)); }
    }
  }

  function RowAtTime(time: int): Row
  {
    Row(time, 0, SnapshotRow, true, [Level(400_000, 10)], [Level(500_000, 10)])
  }

  /** No restraint on fills, and no fee. */
  ghost predicate Plain(r: Realism)
  {
    r == Realism(0, PPM, None, None, None, false, None, None, FeeConfig(true, false, 0, 1, 0, 0, HalfUp))
  }

  /** A share-sized parent that may send at once: one slice, ten shares on offer at the limit. */
  ghost predicate ParentScene(v: Venue, p: Parent)
  {
    && v.tape == EpisodeTape([RowAtTime(0)], [], [], 0, 200, 0, 10_000) && Plain(v.realism) && v.latency(0) == 1
    && p == Parent(0, 0, 100, 10, 500_000, Some(500_000), None, Twap(1, Limits(0, None, PPM, 0)))
  }

  /** Two wallets that hold the same until the deadline, at which one of them is empty. */
  ghost predicate Wallets(a: CashSource, b: CashSource)
  {
    && a.Some? && b.Some?
    && (forall t: int :: a.value.requires(t) && a.value(t) == if t < 100 then 1_000 else 0)
    && (forall t: int :: b.value.requires(t) && b.value(t) == 1_000)
  }

  lemma WholeTargetDue(plan: ParentPlan)
    requires plan.Valid() && plan.target == 10 && plan.start == 0 && plan.deadline == 100
    ensures TwapScheduled(1, plan, 0) == 10
  {
    assert Slot(1, plan, 0) == 1;
    CeilDivExact(10, 1);
  }

  lemma TenOnOffer(asks: Ladder)
    requires asks == [Level(500_000, 10)]
    ensures Executable(Buy, Some(500_000), asks) == asks && Depth(asks) == 10 && PpmOf(10, PPM) == 10
  {
    assert asks[1..] == [];
  }

  lemma EnoughCash(limits: Limits, s: ExecutionState)
    requires limits.feeReservePpm == 0 && s.cash == 1_000 && s.plan.side.Buy? && s.plan.limit == Some(500_000)
    requires s.asks == [Level(500_000, 10)]
    ensures CashAffordable(limits, s) == 2_000
  {
    TenOnOffer(s.asks);
    hide Executable;
    DivBracket(1_000 * SCALE * PPM, 500_000 * PPM, 2_000);
  }

  lemma SendsAtOnce(v: Venue, p: Parent, s: ExecutionState)
    requires ParentScene(v, p) && s.plan == PlanOf(p) && s.now == 0 && s.filled == 0 && s.cash == 1_000
    requires s.asks == [Level(500_000, 10)] && s.minimum == 0 && s.lastAction.None?
    ensures p.policy.Valid() && PlanOf(p).Valid() && Policies.Decide(p.policy, s) == TakerSlice(10)
  {
    hide TwapScheduled, CashAffordable, Executable, Depth, PpmOf, FlowTarget, PovFloor, AdverseMultiplier;
    WholeTargetDue(s.plan);
    TenOnOffer(s.asks);
    EnoughCash(p.policy.limits, s);
  }

  lemma FirstTurn(v: Venue, p: Parent, cash: CashSource, st: ParentState)
    requires ParentScene(v, p) && v.realism.Valid() && p.policy.Valid() && PlanOf(p).Valid()
    requires st == ParentState(SessionState(1_000, 0, 0, [], None, None, 0, None), NO_IMPACT, [])
    ensures var after := ParentStep(v, p, cash, st, 0);
      |after.outcomes| == 1 && after.outcomes[0].decision == 0 && after.outcomes[0].arrival == 1
  {
    hide Policies.Decide, Net, TakenOn, Reconciled, SentBy, ChildCash;
    var ladder := [Level(500_000, 10)];
    assert v.tape.rows[0] == RowAtTime(0) && RowAt(v.tape.rows, 0, 0) == Some(0);
    NothingTaken(v.tape.rows, 0, ladder);
    SendsAtOnce(v, p, SeenAt(v, p, st, 0, 0));
    TurnShape(v, p, cash, st, 0, 0);
  }

  /** The wallet at the deadline decides what is sent before it: the two wallets agree at every instant before
      the deadline, one parent sends nothing, and the other's first child arrives at 1. */
  lemma DeadlineCashIsForeseen(v: Venue, p: Parent, a: CashSource, b: CashSource)
    requires ParentScene(v, p) && Wallets(a, b)
    ensures v.realism.Valid() && p.policy.Valid() && PlanOf(p).Valid()
    ensures forall at :: at < p.deadline ==> CashAgreesAt(a, b, at)
    ensures ParentAfter(v, p, a, NO_IMPACT, OffsetsOf(v, p)).outcomes == []
    ensures var sent := ParentAfter(v, p, b, NO_IMPACT, OffsetsOf(v, p)).outcomes;
      sent != [] && sent[0].arrival == 1 < p.deadline
  {
    hide ParentStep, DecisionOffsets;
    var offsets := OffsetsOf(v, p);
    assert SessionCash(p, a) == 0 && SessionCash(p, b) == 1_000;
    EmptyAtDeadlineSendsNothing(v, p, a, NO_IMPACT, offsets);
    StartsAtZero(v, p);
    NoOffsets(v, p, b, NO_IMPACT, offsets);
    ParentOneMore(v, p, b, NO_IMPACT, offsets, 0);
    FirstTurn(v, p, b, ParentAfter(v, p, b, NO_IMPACT, offsets[..0]));
    ParentLater(v, p, b, NO_IMPACT, offsets, 1, -1);
  }

  lemma StartsAtZero(v: Venue, p: Parent)
    requires p.decision < p.deadline
    ensures OffsetsOf(v, p) != [] && OffsetsOf(v, p)[0] == 0
  {
    var offsets := OffsetsOf(v, p);
    assert 0 in DecisionOffsets(v.tape, p.token, p.decision, p.deadline - p.decision);
    assert 0 in offsets;
    var i :| 0 <= i < |offsets| && offsets[i] == 0;
    assert i > 0 ==> Better(Buy, offsets[0], offsets[i]);
  }
}
