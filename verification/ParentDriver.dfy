/** Driving one parent buy through its child policy over the tape. */
module ParentDriver {
  import opened FixedPoint
  import opened Fees
  import opened Market
  import opened Ladders
  import opened TakerWalk
  import opened Affordability
  import opened Reconstruction
  import opened Tapes
  import opened SelfImpact
  import opened Sending
  import opened Policies
  import opened Sessions

  const DECISION_INTERVAL: int := 250_000_000
  const UNBOUND_CASH: int := 0x4000_0000_0000_0000

  /** Instants at which the parent decides, as offsets from its own decision: the start, the deadline,
      the fixed child clock, and every book or trade event of the token in between. */
  function DecisionOffsets(tape: EpisodeTape, token: Token, start: int, horizon: nat): set<nat>
  {
    {0, horizon}
    + (set k: nat | 0 <= k < horizon && k % DECISION_INTERVAL == 0)
    + (set r | r in tape.rows && r.token == token && start <= r.time <= start + horizon :: (r.time - start) as nat)
    + (set t | t in tape.trades && t.token == token && start <= t.time <= start + horizon :: (t.time - start) as nat)
  }

  /** Total cost of the outcomes of a parent. */
  function CostOf(outcomes: seq<Outcome>): int
  {
    if outcomes == [] then 0
    else
      var o := outcomes[|outcomes| - 1];
      CostOf(outcomes[..|outcomes| - 1]) + o.notional + o.fees
  }

  function FilledOf(outcomes: seq<Outcome>): int
  {
    if outcomes == [] then 0 else FilledOf(outcomes[..|outcomes| - 1]) + outcomes[|outcomes| - 1].filled
  }

  /** What the children of one parent satisfy: each is bounded, decided after the parent and after the
      previous child arrived, filled only before the deadline and the close, and all fills up to and
      including it fit the cash available at its arrival. */
  ghost predicate ChildAt(fee: FeeConfig, outcomes: seq<Outcome>, i: nat, decision: int, deadline: int, end: int, cash: CashSource)
    requires fee.Valid() && i < |outcomes|
  {
    var o := outcomes[i];
    && Coherent(fee, o)
    && decision <= o.decision <= o.arrival
    && (i > 0 ==> outcomes[i - 1].arrival <= o.decision)
    && (o.filled > 0 ==> o.arrival <= deadline && o.arrival < end)
    && (o.filled > 0 && cash.Some? ==>
          cash.value.requires(o.arrival) && CostOf(outcomes[..i + 1]) <= Max(0, cash.value(o.arrival)))
  }

  ghost predicate Children(fee: FeeConfig, outcomes: seq<Outcome>, decision: int, deadline: int, end: int, cash: CashSource)
    requires fee.Valid()
  {
    forall i :: 0 <= i < |outcomes| ==> ChildAt(fee, outcomes, i, decision, deadline, end, cash)
  }

  lemma NetLadders(tape: EpisodeTape, row: nat, record: Record, token: Token)
    requires WellFormed(tape) && row < |tape.rows|
    ensures var bids := Net(tape.rows[row].bids, TakenOn(record, token, Buy));
      var asks := Net(tape.rows[row].asks, TakenOn(record, token, Sell));
      Positive(bids) && BestFirst(Sell, bids) && Positive(asks) && BestFirst(Buy, asks)
  {
    hide TakenOn;
    var r := tape.rows[row];
    assert r in tape.rows;
    NetPositive(r.bids, TakenOn(record, token, Buy));
    NetPositive(r.asks, TakenOn(record, token, Sell));
    NetKeepsOrder(Sell, r.bids, TakenOn(record, token, Buy));
    NetKeepsOrder(Buy, r.asks, TakenOn(record, token, Sell));
  }

  /** A reply of the executor to the outstanding child trips none of the session's guards. */
  lemma ChildAccepted(plan: ParentPlan, fee: FeeConfig, s: SessionState, o: Outcome)
    requires fee.Valid() && Coherent(fee, o) && plan.side.Buy? && s.pending.Some?
    requires o.requested == s.pending.value.size && o.decision == s.pending.value.decision <= o.arrival
    requires s.pending.value.size <= plan.target - s.filled && s.cash >= 0
    requires o.filled > 0 ==> o.filled <= o.requested && o.arrival <= plan.deadline && o.notional + o.fees <= s.cash
    requires forall i <- o.slices :: i.price > 0
    requires s.pending.value.size > 0
    ensures !Refused(plan, s, o)
  {
  }

  lemma ChildrenAppend(fee: FeeConfig, outcomes: seq<Outcome>, o: Outcome, decision: int, deadline: int, end: int,
                       cash: CashSource)
    requires fee.Valid() && Children(fee, outcomes, decision, deadline, end, cash)
    requires Coherent(fee, o) && decision <= o.decision <= o.arrival
    requires outcomes != [] ==> outcomes[|outcomes| - 1].arrival <= o.decision
    requires o.filled > 0 ==> o.arrival <= deadline && o.arrival < end
    requires o.filled > 0 && cash.Some? ==>
      cash.value.requires(o.arrival) && CostOf(outcomes) + o.notional + o.fees <= Max(0, cash.value(o.arrival))
    ensures Children(fee, outcomes + [o], decision, deadline, end, cash)
    ensures CostOf(outcomes + [o]) == CostOf(outcomes) + o.notional + o.fees
    ensures FilledOf(outcomes + [o]) == FilledOf(outcomes) + o.filled
  {
    hide Coherent;
    var n := |outcomes|;
    var all := outcomes + [o];
    assert all[..|outcomes|] == outcomes && all[..|all|] == all;
    forall i | 0 <= i < |all| ensures ChildAt(fee, all, i, decision, deadline, end, cash) {
      if i < n { ChildKept(fee, outcomes, o, i, decision, deadline, end, cash); }
    }
  }

  lemma ChildKept(fee: FeeConfig, outcomes: seq<Outcome>, o: Outcome, i: nat, decision: int, deadline: int, end: int,
                  cash: CashSource)
    requires fee.Valid() && i < |outcomes| && ChildAt(fee, outcomes, i, decision, deadline, end, cash)
    ensures ChildAt(fee, outcomes + [o], i, decision, deadline, end, cash)
  {
    hide Coherent, CostOf;
    assert (outcomes + [o])[..i + 1] == outcomes[..i + 1];
  }

  /** The parameters of a sequential parent buy. */
  datatype Parent = Parent(
    token: Token, decision: int, deadline: int, target: int, benchmark: int, limit: Option<int>,
    maxSpend: Option<int>, policy: Policy)

  /** The parent between two turns: no child is outstanding, and the books of the session and of the
      outcomes sent so far agree. */
  ghost predicate Between(fee: FeeConfig, plan: ParentPlan, end: int, cash: CashSource, sessionCash: int,
                          s: SessionState, outcomes: seq<Outcome>)
    requires fee.Valid()
  {
    && s.pending.None?
    && CashMatches(plan, sessionCash, s)
    && CostOf(outcomes) == sessionCash - s.cash
    && FilledOf(outcomes) == s.filled
    && Children(fee, outcomes, plan.start, plan.deadline, end, cash)
    && (outcomes != [] ==> outcomes[|outcomes| - 1].arrival <= s.notBefore)
    && s.lastAction == if outcomes == [] then None else Some(outcomes[|outcomes| - 1].decision)
  }

  function PlanOf(p: Parent): ParentPlan
  {
    ParentPlan(Buy, p.target, p.decision, p.deadline, p.benchmark, p.limit, PPM, PPM, PPM)
  }

  /** The parent's progress: its session, what it did to the venue, and the outcomes of its children. */
  datatype ParentState = ParentState(session: SessionState, impact: Impact, outcomes: seq<Outcome>)

  /** Cash the session starts with: the budget, or what the wallet holds at the deadline. */
  ghost function SessionCash(p: Parent, cash: CashSource): int
  {
    if p.maxSpend.Some? then p.maxSpend.value
    else if CashAt(cash, p.deadline).Some? then CashAt(cash, p.deadline).value else UNBOUND_CASH
  }

  function BestAskOf(row: Row): Option<int> { if row.asks == [] then None else Some(row.asks[0].price) }

  /** Cash one child may rely on at its arrival: what the session has left, and what the wallet holds then
      minus what earlier children spent. */
  function ChildCash(cash: CashSource, maxSpend: Option<int>, sessionCash: int, spent: int): CashSource
  {
    var fallback := if maxSpend.Some? then maxSpend.value else sessionCash;
    if cash.None? then Some((t: int) => Min(sessionCash, Max(0, fallback - spent)))
    else
      var source := cash.value;
      Some((t: int) requires source.requires(t) => Min(sessionCash, Max(0, Max(0, source(t)) - spent)))
  }

  /** The venue once the rows up to the one at hand have been folded into the consumption record. */
  function Refreshed(v: Venue, p: Parent, s: Impact, row: nat): Impact
    requires row < |v.tape.rows|
  {
    Impact(Reconciled(s.record, s.cursor, v.tape.rows, p.token, row), Advanced(s.cursor, p.token, row), s.draws)
  }

  /** What the policy sees: the row net of simulated consumption, and public volume up to now. */
  function SeenAt(v: Venue, p: Parent, st: ParentState, now: int, row: nat): ExecutionState
    requires row < |v.tape.rows|
  {
    var shown, record := v.tape.rows[row], Refreshed(v, p, st.impact, row).record;
    st.session.At(PlanOf(p), now, Net(shown.bids, TakenOn(record, p.token, Buy)),
                  Net(shown.asks, TakenOn(record, p.token, Sell)),
                  PublicVolume(v.tape.trades, p.token, p.decision, now), v.tape.minimum, BestAskOf(shown))
  }

  /** The session waits while a child is outstanding or still on its way, and otherwise asks the policy. */
  function ActionAt(v: Venue, p: Parent, st: ParentState, now: int, row: nat): Action
    requires p.policy.Valid() && PlanOf(p).Valid() && row < |v.tape.rows|
  {
    if st.session.pending.Some? || now < st.session.notBefore then Wait
    else Policies.Decide(p.policy, SeenAt(v, p, st, now, row))
  }

  /** A child of `size`, sent at once, and what came back. */
  ghost function ChildSent(v: Venue, p: Parent, cash: CashSource, st: ParentState, now: int, row: nat, size: int): (Outcome, Impact)
    requires v.realism.Valid() && row < |v.tape.rows|
  {
    SentBy(v, Refreshed(v, p, st.impact, row), ChildOrder(p, now, size),
           ChildCash(cash, p.maxSpend, st.session.cash, CostOf(st.outcomes)))
  }

  /** One turn on a usable row: a child the policy asks for is sent and its outcome recorded. */
  ghost function TurnOf(v: Venue, p: Parent, cash: CashSource, st: ParentState, now: int, row: nat): ParentState
    requires v.realism.Valid() && p.policy.Valid() && PlanOf(p).Valid() && row < |v.tape.rows|
  {
    var action := ActionAt(v, p, st, now, row);
    var decided := Decided(st.session, now, action);
    if action.Wait? then ParentState(decided, Refreshed(v, p, st.impact, row), st.outcomes)
    else
      var (outcome, after) := ChildSent(v, p, cash, st, now, row, action.size);
      ParentState(AfterOutcome(PlanOf(p), decided, outcome), after, st.outcomes + [outcome])
  }

  function ChildOrder(p: Parent, now: int, size: int): Order
  {
    Order(Buy, p.token, now, size, None, false, p.limit, Some(p.deadline))
  }

  /** Whether the parent can act on what is known at an instant, and on which row. */
  function UsableRow(v: Venue, p: Parent, now: int): Option<nat>
    requires v.realism.Valid()
    ensures UsableRow(v, p, now).Some? ==> UsableRow(v, p, now).value < |v.tape.rows|
  {
    var at := RowAt(v.tape.rows, p.token, now);
    if at.Some? && v.realism.requireValid
       && (!v.tape.rows[at.value].valid || IsUncertain(v.tape.spans, p.token, now)) then None
    else at
  }

  /** The parent after deciding at the given offsets; once filled it decides no more. */
  ghost function ParentAfter(v: Venue, p: Parent, cash: CashSource, start: Impact, offsets: seq<nat>): ParentState
    requires v.realism.Valid() && p.policy.Valid() && PlanOf(p).Valid()
  {
    if offsets == [] then
      ParentState(SessionState(SessionCash(p, cash), 0, 0, [], None, None, p.decision, None), start, [])
    else
      ParentStep(v, p, cash, ParentAfter(v, p, cash, start, offsets[..|offsets| - 1]), p.decision + offsets[|offsets| - 1])
  }

  ghost function ParentStep(v: Venue, p: Parent, cash: CashSource, st: ParentState, now: int): ParentState
    requires v.realism.Valid() && p.policy.Valid() && PlanOf(p).Valid()
  {
    var row := UsableRow(v, p, now);
    if p.target - st.session.filled <= 0 || row.None? then st else TurnOf(v, p, cash, st, now, row.value)
  }

  function OffsetsOf(v: Venue, p: Parent): seq<nat>
    requires p.decision < p.deadline
  {
    Prices(Buy, DecisionOffsets(v.tape, p.token, p.decision, p.deadline - p.decision))
  }

  /** The mark the parent is scored against: the last displayed ask at the deadline, or the benchmark. */
  function MarkOf(tape: EpisodeTape, p: Parent): int
  {
    var mark := RowAt(tape.rows, p.token, p.deadline);
    var best := if mark.Some? then BestAskOf(tape.rows[mark.value]) else None;
    if best.Some? then best.value else p.benchmark
  }

  lemma ParentOneMore(v: Venue, p: Parent, cash: CashSource, start: Impact, offsets: seq<nat>, i: nat)
    requires v.realism.Valid() && p.policy.Valid() && PlanOf(p).Valid() && i < |offsets|
    ensures ParentAfter(v, p, cash, start, offsets[..i + 1])
         == ParentStep(v, p, cash, ParentAfter(v, p, cash, start, offsets[..i]), p.decision + offsets[i])
  {
    hide ParentStep;
    assert offsets[..i + 1][..i] == offsets[..i];
  }

  /** A filled parent stays as it is. */
  lemma {:induction false} ParentStays(v: Venue, p: Parent, cash: CashSource, start: Impact, offsets: seq<nat>, i: nat)
    requires v.realism.Valid() && p.policy.Valid() && PlanOf(p).Valid() && i <= |offsets|
    requires i < |offsets| ==> p.target - ParentAfter(v, p, cash, start, offsets[..i]).session.filled <= 0
    ensures ParentAfter(v, p, cash, start, offsets) == ParentAfter(v, p, cash, start, offsets[..i])
    decreases |offsets|
  {
    if i == |offsets| {
      assert offsets[..i] == offsets;
    } else {
      var init := offsets[..|offsets| - 1];
      assert init[..i] == offsets[..i];
      ParentStays(v, p, cash, start, init, i);
    }
  }

  /** Child `i` asked for no more than the schedule allowed on top of all fills before it, given the public
      volume up to its decision, and filled no more than it asked for; it kept to the largest child and, before the
      deadline, to the interval. */
  ghost predicate ScheduledAt(p: Parent, trades: seq<Trade>, outcomes: seq<Outcome>, i: nat)
    requires p.policy.Valid() && PlanOf(p).Valid() && i < |outcomes|
  {
    var o := outcomes[i];
    && 0 <= o.filled <= o.requested
    && FilledOf(outcomes[..i]) + o.requested
         <= ScheduleCeiling(p.policy, PlanOf(p), o.decision, PublicVolume(trades, p.token, p.decision, o.decision))
    && (p.policy.limits.maxChild.Some? ==> o.requested <= p.policy.limits.maxChild.value)
    && (i > 0 && o.decision < p.deadline ==> o.decision - outcomes[i - 1].decision >= p.policy.limits.interval)
  }

  ghost predicate Scheduled(p: Parent, trades: seq<Trade>, outcomes: seq<Outcome>)
    requires p.policy.Valid() && PlanOf(p).Valid()
  {
    forall i :: 0 <= i < |outcomes| ==> ScheduledAt(p, trades, outcomes, i)
  }

  lemma ScheduledAppend(p: Parent, trades: seq<Trade>, outcomes: seq<Outcome>, o: Outcome)
    requires p.policy.Valid() && PlanOf(p).Valid() && Scheduled(p, trades, outcomes) && 0 <= o.filled <= o.requested
    requires FilledOf(outcomes) + o.requested
      <= ScheduleCeiling(p.policy, PlanOf(p), o.decision, PublicVolume(trades, p.token, p.decision, o.decision))
    requires p.policy.limits.maxChild.Some? ==> o.requested <= p.policy.limits.maxChild.value
    requires outcomes != [] && o.decision < p.deadline ==>
      o.decision - outcomes[|outcomes| - 1].decision >= p.policy.limits.interval
    ensures Scheduled(p, trades, outcomes + [o])
  {
    hide ScheduleCeiling, PublicVolume, FilledOf;
    var all := outcomes + [o];
    forall i | 0 <= i < |all| ensures ScheduledAt(p, trades, all, i) {
      if i < |outcomes| {
        assert ScheduledAt(p, trades, outcomes, i) && all[..i] == outcomes[..i];
      } else {
        assert all[..i] == outcomes;
      }
    }
  }

  /** Under TWAP, all fills before a child and the child itself stay within the equal slices of the target up to the
      slot it was decided in. */
  ghost predicate SpreadOver(p: Parent, outcomes: seq<Outcome>)
  {
    p.policy.Twap? ==>
      forall i, k: nat :: 0 <= i < |outcomes| && InSlot(p.policy.slices, PlanOf(p), outcomes[i].decision, k) ==>
        EvenlySpread(p.policy.slices, p.target, k, FilledOf(outcomes[..i]) + outcomes[i].requested)
  }

  lemma ScheduledIsSpreadOver(p: Parent, trades: seq<Trade>, outcomes: seq<Outcome>)
    requires p.policy.Valid() && PlanOf(p).Valid() && Scheduled(p, trades, outcomes)
    ensures SpreadOver(p, outcomes)
  {
    hide TwapScheduled, InSlot, EvenlySpread, PublicVolume;
    if p.policy.Twap? {
      forall i, k: nat | 0 <= i < |outcomes| && InSlot(p.policy.slices, PlanOf(p), outcomes[i].decision, k)
        ensures EvenlySpread(p.policy.slices, p.target, k, FilledOf(outcomes[..i]) + outcomes[i].requested)
      {
        assert ScheduledAt(p, trades, outcomes, i);
        SlotIsEarly(p.policy.slices, PlanOf(p), outcomes[i].decision, k);
        ScheduledIsSpread(p.policy.slices, PlanOf(p), outcomes[i].decision, k, FilledOf(outcomes[..i]) + outcomes[i].requested);
      }
    }
  }

  lemma SlotIsEarly(slices: int, plan: ParentPlan, now: int, k: nat)
    requires InSlot(slices, plan, now, k)
    ensures now < plan.deadline
  {
  }

  lemma {:induction false} FilledNonNegative(p: Parent, trades: seq<Trade>, outcomes: seq<Outcome>, n: nat)
    requires p.policy.Valid() && PlanOf(p).Valid() && Scheduled(p, trades, outcomes) && n <= |outcomes|
    ensures FilledOf(outcomes[..n]) >= 0
  {
    hide ScheduleCeiling, PublicVolume;
    if n > 0 {
      FilledNonNegative(p, trades, outcomes, n - 1);
      assert ScheduledAt(p, trades, outcomes, n - 1) && outcomes[..n][..n - 1] == outcomes[..n - 1];
    }
  }

  /** With a zero floor, all fills through any child decided before the deadline are at most the participation
      share of the public volume by its decision plus those fills themselves. */
  lemma ParentShare(p: Parent, trades: seq<Trade>, outcomes: seq<Outcome>, i: nat)
    requires p.policy.Valid() && PlanOf(p).Valid() && Scheduled(p, trades, outcomes) && i < |outcomes|
    requires p.policy.AdaptivePov? && p.policy.floorPpm == 0 && outcomes[i].decision < p.deadline
    ensures var filled, volume := FilledOf(outcomes[..i + 1]), PublicVolume(trades, p.token, p.decision, outcomes[i].decision);
      filled * PPM <= p.policy.participationPpm * (volume + filled)
  {
    hide ScheduleCeiling, PublicVolume;
    assert ScheduledAt(p, trades, outcomes, i);
    FilledNonNegative(p, trades, outcomes, i + 1);
    assert outcomes[..i + 1][..i] == outcomes[..i];
    ParticipationShare(p.policy, PlanOf(p), outcomes[i].decision,
      PublicVolume(trades, p.token, p.decision, outcomes[i].decision), FilledOf(outcomes[..i + 1]));
  }

  lemma TurnEnds(fee: FeeConfig, plan: ParentPlan, end: int, cash: CashSource, sessionCash: int,
                 before: SessionState, s: SessionState, outcomes: seq<Outcome>, o: Outcome)
    requires fee.Valid() && plan.side.Buy? && Between(fee, plan, end, cash, sessionCash, before, outcomes)
    requires s.cash == before.cash && s.fills == before.fills && s.filled == before.filled && s.notBefore == before.notBefore
    requires s.lastAction == Some(o.decision)
    requires !Refused(plan, s, o) && Coherent(fee, o) && plan.start <= o.decision && before.notBefore <= o.decision <= o.arrival
    requires o.filled > 0 ==> o.arrival <= plan.deadline && o.arrival < end
    requires o.filled > 0 && cash.Some? ==>
      cash.value.requires(o.arrival) && CostOf(outcomes) + o.notional + o.fees <= Max(0, cash.value(o.arrival))
    ensures Between(fee, plan, end, cash, sessionCash, AfterOutcome(plan, s, o), outcomes + [o])
  {
    hide Children, Priced, FillsOf;
    OutcomeCashMatches(plan, fee, sessionCash, s, o);
    ChildrenAppend(fee, outcomes, o, plan.start, plan.deadline, end, cash);
  }

  lemma ParentStarts(fee: FeeConfig, plan: ParentPlan, end: int, cash: CashSource, sessionCash: int, s: SessionState)
    requires fee.Valid() && plan.side.Buy? && s == SessionState(sessionCash, 0, 0, [], None, None, plan.start, None)
    ensures Between(fee, plan, end, cash, sessionCash, s, [])
  {
  }

  lemma BetweenMeans(fee: FeeConfig, plan: ParentPlan, end: int, cash: CashSource, sessionCash: int,
                     s: SessionState, outcomes: seq<Outcome>)
    requires fee.Valid() && Between(fee, plan, end, cash, sessionCash, s, outcomes)
    ensures s.pending.None? && CashMatches(plan, sessionCash, s)
    ensures CostOf(outcomes) == sessionCash - s.cash && FilledOf(outcomes) == s.filled
    ensures Children(fee, outcomes, plan.start, plan.deadline, end, cash)
  {
  }

  lemma WaitEnds(fee: FeeConfig, plan: ParentPlan, end: int, cash: CashSource, sessionCash: int,
                 before: SessionState, now: int, outcomes: seq<Outcome>)
    requires fee.Valid() && Between(fee, plan, end, cash, sessionCash, before, outcomes)
    ensures Between(fee, plan, end, cash, sessionCash, Decided(before, now, Wait), outcomes)
  {
  }

  /** What the driver relies on of a child the policy asks for. */
  lemma ChildAsked(policy: Policy, s: ExecutionState)
    requires policy.Valid() && s.plan.Valid() && Policies.Decide(policy, s).TakerSlice?
    ensures var size := Policies.Decide(policy, s).size;
      && 0 < size <= s.plan.target - s.filled && s.filled + size <= ScheduleCeiling(policy, s.plan, s.now, s.volume)
      && (policy.limits.maxChild.Some? ==> size <= policy.limits.maxChild.value)
      && (s.now < s.plan.deadline && s.lastAction.Some? ==> s.now - s.lastAction.value >= policy.limits.interval)
  {
    hide Policies.Decide, ScheduleCeiling;
    ChildWithinSchedule(policy, s);
    ChildWithinBounds(policy, s);
  }

  /** One turn on a usable row: ask the session, and if it answers with a child, send it and record what
      came back. Neither call is ever refused. */
  method Turn(replay: EpisodeReplay, session: SequentialExecutionSession, p: Parent, cash: CashSource,
              now: int, row: nat, ghost sessionCash: int, sent: seq<Outcome>, spent: int)
    returns (outcomes: seq<Outcome>, nowSpent: int)
    requires replay.realism.Valid() && WellFormed(replay.tape) && row < |replay.tape.rows|
    requires session.Valid() && session.plan == PlanOf(p) && session.policy == p.policy
    requires session.cursor.trades == replay.tape.trades && session.cursor.token == p.token
    requires p.decision <= now <= p.deadline
    requires session.state.lastDecision.Some? ==> session.state.lastDecision.value <= now
    requires spent == CostOf(sent) && Scheduled(p, replay.tape.trades, sent)
    requires Between(replay.realism.fee, session.plan, replay.tape.end, cash, sessionCash, session.state, sent)
    requires cash.Some? ==> forall t :: p.decision <= t < replay.tape.end ==> cash.value.requires(t)
    modifies replay, session, session.cursor
    ensures ParentState(session.state, replay.State(), outcomes)
         == TurnOf(replay.At(), p, cash, ParentState(old(session.state), old(replay.State()), sent), now, row)
    ensures session.Valid() && session.state.lastDecision == Some(now)
    ensures nowSpent == CostOf(outcomes) && Scheduled(p, replay.tape.trades, outcomes)
    ensures Between(replay.realism.fee, session.plan, replay.tape.end, cash, sessionCash, session.state, outcomes)
  {
    hide Net, TakenOn, Reconciled, Advanced, Coherent, Children, CashMatches, Refused, Keeps,
      PublicVolume, WellFormed, CostOf, FilledOf, Policies.Decide, ChildCash, SentBy, Scheduled, ScheduleCeiling;
    ghost var was := replay.State();
    replay.Reconcile(p.token, row);
    var shown := replay.tape.rows[row];
    var bids := Net(shown.bids, TakenOn(replay.record, p.token, Buy));
    var asks := Net(shown.asks, TakenOn(replay.record, p.token, Sell));
    NetLadders(replay.tape, row, replay.record, p.token);
    BestAskPositive(replay.tape, row);
    var reference := BestAskOf(shown);
    ghost var before, seen := session.state, session.Seen(now, bids, asks, replay.tape.minimum, reference);
    KeepsBounds(session.plan, session.policy, session.cursor.trades, session.cursor.token, before);
    var action := session.Decide(now, bids, asks, replay.tape.minimum, reference);
    assert action.Ok?;
    outcomes, nowSpent := sent, spent;
    WaitEnds(replay.realism.fee, session.plan, replay.tape.end, cash, sessionCash, before, now, sent);
    if action.value.TakerSlice? {
      ChildAsked(session.policy, seen);
      var plan := session.plan;
      var outcome := SendChild(replay, ChildOrder(p, now, action.value.size), cash, p.maxSpend, session.state.cash, spent);
      ChildAccepted(plan, replay.realism.fee, session.state, outcome);
      TurnEnds(replay.realism.fee, plan, replay.tape.end, cash, sessionCash, before, session.state, sent, outcome);
      outcomes := sent + [outcome];
      nowSpent := spent + outcome.notional + outcome.fees;
      CostAppend(sent, outcome);
      ScheduledAppend(p, replay.tape.trades, sent, outcome);
      var ok := session.RecordOutcome(outcome);
      assert ok;
    }
  }

  lemma BestAskPositive(tape: EpisodeTape, row: nat)
    requires row < |tape.rows| && WellFormed(tape)
    ensures BestAskOf(tape.rows[row]).Some? ==> BestAskOf(tape.rows[row]).value > 0
  {
  }

  lemma CostAppend(outcomes: seq<Outcome>, o: Outcome)
    ensures CostOf(outcomes + [o]) == CostOf(outcomes) + o.notional + o.fees
  {
  }

  lemma KeepsBounds(plan: ParentPlan, policy: Policy, trades: seq<Trade>, token: Token, s: SessionState)
    requires plan.Valid() && policy.Valid() && Keeps(plan, policy, trades, token, s)
    ensures 0 <= s.filled <= plan.target && s.cash >= 0 && s.inventory >= 0
    ensures s.lastAction.Some? ==> s.lastDecision.Some? && s.lastAction.value <= s.lastDecision.value
  {
  }

  /** Decides at every offset until the target is filled. */
  method DecideAt(replay: EpisodeReplay, session: SequentialExecutionSession, p: Parent, cash: CashSource,
                  offsets: seq<nat>, ghost sessionCash: int)
    returns (outcomes: seq<Outcome>)
    requires replay.realism.Valid() && WellFormed(replay.tape) && p.policy.Valid() && PlanOf(p).Valid()
    requires p.deadline < replay.tape.end && offsets == OffsetsOf(replay.At(), p)
    requires session.Valid() && session.plan == PlanOf(p) && session.policy == p.policy
    requires session.cursor.trades == replay.tape.trades && session.cursor.token == p.token
    requires cash.Some? ==> forall t :: p.decision <= t < replay.tape.end ==> cash.value.requires(t)
    requires sessionCash == SessionCash(p, cash)
    requires session.state == SessionState(sessionCash, 0, 0, [], None, None, p.decision, None)
    modifies replay, session, session.cursor
    ensures session.Valid()
    ensures ParentState(session.state, replay.State(), outcomes)
         == ParentAfter(replay.At(), p, cash, old(replay.State()), offsets)
    ensures Between(replay.realism.fee, session.plan, replay.tape.end, cash, sessionCash, session.state, outcomes)
    ensures Scheduled(p, replay.tape.trades, outcomes)
  {
    hide Coherent, Children, RowAt, IsUncertain, DecisionOffsets, WellFormed, Keeps, Notional, Between, Prices, CostOf,
      FilledOf, CashMatches, Sessions.Sorted, TurnOf, ParentAfter, UsableRow, ScheduledAt;
    ghost var v, was := replay.At(), replay.State();
    outcomes := [];
    var spent, i := 0, 0;
    ParentStarts(replay.realism.fee, session.plan, replay.tape.end, cash, sessionCash, session.state);
    NoOffsets(v, p, cash, was, offsets);
    while i < |offsets|
      invariant 0 <= i <= |offsets|
      invariant session.Valid() && spent == CostOf(outcomes)
      invariant session.state.lastDecision.Some? ==>
        i > 0 && session.state.lastDecision.value <= p.decision + offsets[i - 1]
      invariant Between(replay.realism.fee, session.plan, replay.tape.end, cash, sessionCash, session.state, outcomes)
      invariant ParentState(session.state, replay.State(), outcomes) == ParentAfter(v, p, cash, was, offsets[..i])
      invariant p.target - session.state.filled > 0 && Scheduled(p, replay.tape.trades, outcomes)
    {
      var now := p.decision + offsets[i];
      OffsetsWithin(replay.tape, p.token, p.decision, p.deadline - p.decision, offsets[i]);
      ParentOneMore(v, p, cash, was, offsets, i);
      i := i + 1;
      var row := UsableRow(replay.At(), p, now);
      if row.None? {
        continue;
      }
      outcomes, spent := Turn(replay, session, p, cash, now, row.value, sessionCash, outcomes, spent);
      if p.target - session.state.filled <= 0 {
        break;
      }
    }
    ParentStays(v, p, cash, was, offsets, i);
  }

  /** Replays one parent buy to its deadline. No guard of the session is ever tripped: every decision,
      every recorded outcome and the final evaluation succeed. */
  method SequentialEntry(replay: EpisodeReplay, p: Parent, cash: CashSource)
    returns (outcomes: seq<Outcome>, objective: Objective)
    requires replay.realism.Valid() && WellFormed(replay.tape) && p.policy.Valid()
    requires p.target > 0 && p.benchmark > 0 && p.limit.Some? && p.limit.value > 0
    requires p.decision < p.deadline < replay.tape.end
    requires p.maxSpend.Some? ==> p.maxSpend.value >= 0
    requires cash.Some? ==> forall t :: p.decision <= t < replay.tape.end ==> cash.value.requires(t)
    modifies replay
    ensures var st := ParentAfter(replay.At(), p, cash, old(replay.State()), OffsetsOf(replay.At(), p));
      && outcomes == st.outcomes && replay.State() == st.impact
      && Ok(objective) == Evaluate(PlanOf(p), st.session.fills, p.deadline, Some(MarkOf(replay.tape, p)))
    ensures Children(replay.realism.fee, outcomes, p.decision, p.deadline, replay.tape.end, cash)
    ensures Scheduled(p, replay.tape.trades, outcomes) && SpreadOver(p, outcomes)
    ensures objective.filled == FilledOf(outcomes)
    ensures 0 <= objective.filled <= p.target && objective.filled + objective.unfilled == p.target
    ensures p.maxSpend.Some? ==> CostOf(outcomes) <= p.maxSpend.value
    ensures CostOf(outcomes) == Notional(objective.filled, p.benchmark) + objective.rawShortfall
  {
    hide Coherent, Children, RowAt, IsUncertain, DecisionOffsets, WellFormed, Keeps, Notional, Between, Prices, CostOf,
      FilledOf, CashMatches, Sessions.Sorted, ParentAfter, Evaluate, MarkOf, Scheduled, SpreadOver;
    var tape, plan := replay.tape, PlanOf(p);
    TradesSorted(tape);
    var cursor := new CausalVolumeCursor(tape.trades, p.token, p.decision);
    var sessionCash: int :=
      if p.maxSpend.Some? then p.maxSpend.value
      else if cash.Some? then Max(0, cash.value(p.deadline)) else UNBOUND_CASH;
    var session := new SequentialExecutionSession(plan, p.policy, cursor, sessionCash, 0);
    outcomes := DecideAt(replay, session, p, cash, OffsetsOf(replay.At(), p), sessionCash);
    ScheduledIsSpreadOver(p, tape.trades, outcomes);
    BetweenMeans(replay.realism.fee, plan, tape.end, cash, sessionCash, session.state, outcomes);
    objective := Score(tape, p, session, sessionCash);
    KeepsBounds(plan, session.policy, cursor.trades, cursor.token, session.state);
  }

  lemma NoOffsets(v: Venue, p: Parent, cash: CashSource, start: Impact, offsets: seq<nat>)
    requires v.realism.Valid() && p.policy.Valid() && PlanOf(p).Valid()
    ensures ParentAfter(v, p, cash, start, offsets[..0])
         == ParentState(SessionState(SessionCash(p, cash), 0, 0, [], None, None, p.decision, None), start, [])
  {
  }

  /** Scores the parent at its deadline. */
  method Score(tape: EpisodeTape, p: Parent, session: SequentialExecutionSession, ghost sessionCash: int)
    returns (objective: Objective)
    requires WellFormed(tape) && session.Valid() && session.plan == PlanOf(p)
    requires session.state.pending.None? && CashMatches(session.plan, sessionCash, session.state)
    ensures Ok(objective) == Evaluate(PlanOf(p), session.state.fills, p.deadline, Some(MarkOf(tape, p)))
    ensures objective.filled == session.state.filled
    ensures objective.filled + objective.unfilled == session.plan.target
    ensures sessionCash - session.state.cash
         == Notional(session.state.filled, session.plan.benchmark) + objective.rawShortfall
  {
    hide Evaluate, RowAt, Keeps, WellFormed, Notional;
    var plan, mark := session.plan, MarkOf(tape, p);
    MarkPositive(tape, p);
    KeepsBounds(plan, session.policy, session.cursor.trades, session.cursor.token, session.state);
    EvaluationSucceeds(plan, session.policy, session.cursor.trades, session.cursor.token, session.state,
      sessionCash, plan.deadline, Some(mark));
    var result := session.EvaluateAt(plan.deadline, Some(mark));
    assert result.Ok?;
    objective := result.value;
  }

  lemma MarkPositive(tape: EpisodeTape, p: Parent)
    requires WellFormed(tape) && p.benchmark > 0
    ensures MarkOf(tape, p) > 0
  {
  }

  lemma TradesSorted(tape: EpisodeTape)
    requires WellFormed(tape)
    ensures Sorted(tape.trades)
  {
  }

  lemma OffsetsWithin(tape: EpisodeTape, token: Token, start: int, horizon: nat, k: nat)
    requires k in DecisionOffsets(tape, token, start, horizon)
    ensures k <= horizon
  {
  }

  lemma ChildCashAt(cash: CashSource, maxSpend: Option<int>, sessionCash: int, spent: int, t: int)
    requires sessionCash >= 0 && (cash.Some? ==> cash.value.requires(t))
    ensures var source := ChildCash(cash, maxSpend, sessionCash, spent);
      && source.Some? && source.value.requires(t) && source.value(t) <= sessionCash
      && (cash.Some? && source.value(t) > 0 ==> spent + source.value(t) <= Max(0, cash.value(t)))
  {
  }

  /** Sends one child. Its fill fits the session's cash, and together with what earlier children spent it
      fits the wallet at its arrival. */
  method SendChild(replay: EpisodeReplay, o: Order, cash: CashSource, maxSpend: Option<int>, sessionCash: int, spent: int)
    returns (outcome: Outcome)
    requires replay.realism.Valid()
    requires cash.Some? ==> forall t :: o.decision <= t < replay.tape.end ==> cash.value.requires(t)
    requires o.side.Buy? && o.maxSpend.None? && o.deadline.Some? && sessionCash >= 0 && WellFormed(replay.tape)
    modifies replay
    ensures (outcome, replay.State())
         == SentBy(replay.At(), old(replay.State()), o, ChildCash(cash, maxSpend, sessionCash, spent))
    ensures Coherent(replay.realism.fee, outcome) && forall s <- outcome.slices :: s.price > 0
    ensures outcome.requested == o.shares && outcome.decision == o.decision <= outcome.arrival && outcome.filled >= 0
    ensures outcome.filled > 0 ==>
      && outcome.filled <= o.shares
      && outcome.arrival <= o.deadline.value && outcome.arrival < replay.tape.end
      && outcome.notional + outcome.fees <= sessionCash
    ensures outcome.filled > 0 && cash.Some? ==>
      cash.value.requires(outcome.arrival)
      && spent + outcome.notional + outcome.fees <= Max(0, cash.value(outcome.arrival))
  {
    hide Sent, Coherent, ChildCash;
    var source := ChildCash(cash, maxSpend, sessionCash, spent);
    ghost var arrival := o.decision + replay.latency(replay.draws);
    forall t | o.decision <= t < replay.tape.end ensures source.Some? && source.value.requires(t) {
      ChildCashAt(cash, maxSpend, sessionCash, spent, t);
    }
    if arrival < replay.tape.end { ChildCashAt(cash, maxSpend, sessionCash, spent, arrival); }
    SentPrices(replay.tape, replay.realism, replay.record, replay.cursor, o, arrival, CashAt(source, arrival));
    SentBounded(replay.tape, replay.realism, replay.record, replay.cursor, o, arrival, CashAt(source, arrival));
    outcome := replay.Send(o, source);
    CoherentSign(replay.realism.fee, outcome);
  }

  lemma CoherentSign(fee: FeeConfig, o: Outcome)
    requires fee.Valid() && Coherent(fee, o)
    ensures o.filled >= 0
  {
  }
}
