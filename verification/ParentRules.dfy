/** When a parent order decides, what it may see then, and how it is scored. */
module ParentRules {
  import opened FixedPoint
  import opened Market
  import opened Ladders
  import opened TakerWalk
  import opened Reconstruction
  import opened Tapes
  import opened SelfImpact
  import opened Sending
  import opened SendRules
  import opened Policies
  import opened Sessions
  import opened ParentDriver

  // ---- when it decides, and on what ---------------------------------------------------------

  /** Something happened to the token at an instant: a book row or a public trade. */
  ghost predicate HappensAt(tape: EpisodeTape, token: Token, time: int)
  {
    (exists r <- tape.rows :: r.token == token && r.time == time) || (exists t <- tape.trades :: t.token == token && t.time == time)
  }

  /** A parent decides at its start, at its deadline, every quarter of a second in between, and whenever something happens
      to its token; each instant once, in order. */
  lemma DecidesAt(v: Venue, p: Parent, x: nat)
    requires p.decision < p.deadline
    ensures var offsets := OffsetsOf(v, p);
      && (x in offsets <==>
            && p.decision + x <= p.deadline
            && (x == 0 || p.decision + x == p.deadline || x % 250_000_000 == 0 || HappensAt(v.tape, p.token, p.decision + x)))
      && forall i, j :: 0 <= i < j < |offsets| ==> offsets[i] < offsets[j]
  {
    hide DecisionOffsets, HappensAt;
    OffsetIs(v.tape, p.token, p.decision, p.deadline - p.decision, x);
  }

  lemma OffsetIs(tape: EpisodeTape, token: Token, start: int, horizon: nat, x: nat)
    ensures x in DecisionOffsets(tape, token, start, horizon) <==>
      && x <= horizon && (x == 0 || x == horizon || x % 250_000_000 == 0 || HappensAt(tape, token, start + x))
  {
    var s := DecisionOffsets(tape, token, start, horizon);
    if x <= horizon && HappensAt(tape, token, start + x) {
      if r :| r in tape.rows && r.token == token && r.time == start + x {
        assert (r.time - start) as nat in s;
      } else {
        var t :| t in tape.trades && t.token == token && t.time == start + x;
        assert (t.time - start) as nat in s;
      }
    }
  }

  /** The row a parent acts on is the last of its token so far, if it may be trusted. */
  lemma ActsOn(v: Venue, p: Parent, now: int, i: nat)
    requires v.realism.Valid()
    ensures UsableRow(v, p, now) == Some(i) <==>
      && Meets(v.tape, p.token, now, i)
      && (v.realism.requireValid ==> v.tape.rows[i].valid && !Distrusted(v.tape.spans, p.token, now))
  {
    hide IsUncertain, Distrusted;
    DistrustedMeans(v.tape.spans, p.token, now);
    var at := RowAt(v.tape.rows, p.token, now);
    if Meets(v.tape, p.token, now, i) { assert at == Some(i); }
  }

  /** What the policy sees on a row: what is left of its levels on both sides, its own best ask, public volume since the
      parent's decision, and nothing later. */
  lemma SeesOnly(v: Venue, p: Parent, st: ParentState, now: int, row: nat)
    requires row < |v.tape.rows|
    ensures var seen := SeenAt(v, p, st, now, row);
      var buy, sell := ChildOrder(p, now, 1), ChildOrder(p, now, 1).(side := Sell);
      && LeftOver(seen.asks, v.tape, st.impact.record, st.impact.cursor, buy, row)
      && LeftOver(seen.bids, v.tape, st.impact.record, st.impact.cursor, sell, row)
      && seen.volume == PublicVolume(v.tape.trades, p.token, p.decision, now)
      && seen.reference == (if v.tape.rows[row].asks == [] then None else Some(v.tape.rows[row].asks[0].price))
      && seen.now == now && seen.plan == PlanOf(p) && seen.minimum == v.tape.minimum
      && seen.filled == st.session.filled && seen.cash == st.session.cash && seen.lastAction == st.session.lastAction
  {
    hide LeftOver, Net, TakenOn, Reconciled, PublicVolume;
    NetIsLeftOver(v.tape, st.impact.record, st.impact.cursor, ChildOrder(p, now, 1), row);
    NetIsLeftOver(v.tape, st.impact.record, st.impact.cursor, ChildOrder(p, now, 1).(side := Sell), row);
  }

  /** An outcome answers the outstanding child: it names its size and decision, its totals are those of its slices, each of
      a positive size and price; it fills no more than the child, the target and the cash or the inventory allow, and
      nothing once the parent is over. */
  ghost predicate AnswersChild(plan: ParentPlan, s: SessionState, o: Outcome)
  {
    && s.pending.Some? && o.requested == s.pending.value.size && o.decision == s.pending.value.decision <= o.arrival
    && TallyOf(o.slices) == Tally(o.filled, o.notional, o.fees)
    && (forall x <- o.slices :: x.size > 0 && x.price > 0 && x.fee >= 0)
    && o.filled <= s.pending.value.size && s.filled + o.filled <= plan.target
    && (o.filled > 0 ==> o.arrival <= plan.deadline)
    && (plan.side.Buy? ==> o.notional + o.fees <= s.cash)
    && (plan.side.Sell? ==> o.filled <= s.inventory && o.fees <= s.cash + o.notional)
  }

  /** What recording an outcome moves: the shares and the money of its slices, and no child is outstanding after it. */
  ghost predicate Moves(plan: ParentPlan, s: SessionState, o: Outcome, after: SessionState)
  {
    && after.filled == s.filled + o.filled && FillShares(after.fills) == FillShares(s.fills) + o.filled
    && (plan.side.Buy? ==> after.cash == s.cash - o.notional - o.fees && after.inventory == s.inventory + o.filled)
    && (plan.side.Sell? ==> after.cash == s.cash + o.notional - o.fees && after.inventory == s.inventory - o.filled)
    && after.pending.None? && after.notBefore >= s.notBefore && after.notBefore >= o.arrival
    && after.lastAction == s.lastAction && after.lastDecision == s.lastDecision
  }

  /** A session records exactly the outcomes that answer its child. */
  lemma RecordsAnswers(plan: ParentPlan, s: SessionState, o: Outcome)
    ensures !Refused(plan, s, o) <==> AnswersChild(plan, s, o)
    ensures !Refused(plan, s, o) ==> Moves(plan, s, o, AfterOutcome(plan, s, o))
  {
    hide TallyOf, FillsOf, FillShares;
    FillsStamped(o.slices, o.arrival);
    FillsAppend(s.fills, FillsOf(o.slices, o.arrival));
  }

  // ---- how it is scored ---------------------------------------------------------------------

  /** The last ask displayed by the deadline is the mark, and the benchmark stands in where there is none. */
  lemma MarkIsLastAsk(tape: EpisodeTape, p: Parent, i: nat)
    ensures Meets(tape, p.token, p.deadline, i) ==>
      MarkOf(tape, p) == if tape.rows[i].asks == [] then p.benchmark else tape.rows[i].asks[0].price
    ensures (forall j: nat :: !Meets(tape, p.token, p.deadline, j)) ==> MarkOf(tape, p) == p.benchmark
  {
    var at := RowAt(tape.rows, p.token, p.deadline);
    if at.Some? { assert Meets(tape, p.token, p.deadline, at.value); }
  }

  /** `x` is the given millionths of a value, cut toward zero. */
  predicate CutShare(x: int, ppm: nat, value: int)
  {
    if value >= 0 then x * PPM <= value * ppm < (x + 1) * PPM else (-x) * PPM <= (-value) * ppm < (-x + 1) * PPM
  }

  lemma PpmIsCutShare(value: int, ppm: nat)
    ensures CutShare(PpmOf(value, ppm), ppm, value)
  {
    var a := if value < 0 then -value else value;
    Bracket(a * ppm, PPM);
  }

  /** What a fill lost by the mark: a buy above it, or a sale below it. */
  function LostOn(side: Side, f: Sessions.Fill, mark: int): nat
  {
    if side.Buy? && f.price > mark then Notional(f.shares, f.price - mark)
    else if side.Sell? && f.price < mark then Notional(f.shares, mark - f.price)
    else 0
  }

  function Lost(side: Side, fills: seq<Sessions.Fill>, mark: int): nat
  {
    if fills == [] then 0 else LostOn(side, fills[0], mark) + Lost(side, fills[1..], mark)
  }

  lemma {:induction false} LostConcat(side: Side, fills: seq<Sessions.Fill>, f: Sessions.Fill, mark: int)
    ensures Lost(side, fills + [f], mark) == Lost(side, fills, mark) + LostOn(side, f, mark)
  {
    hide LostOn;
    if fills == [] {
      assert ([] + [f])[1..] == [];
    } else {
      assert (fills + [f])[1..] == fills[1..] + [f];
      LostConcat(side, fills[1..], f, mark);
    }
  }

  lemma {:induction false} AdverseIsLost(side: Side, fills: seq<Sessions.Fill>, mark: int)
    requires mark >= 0
    ensures AdverseMarkout(side, fills, mark) == Lost(side, fills, mark)
  {
    hide Notional;
    if fills != [] {
      var init, f := fills[..|fills| - 1], fills[|fills| - 1];
      AdverseIsLost(side, init, mark);
      LostConcat(side, init, f, mark);
      assert init + [f] == fills;
      NoNotional(f.shares);
    }
  }

  lemma NoNotional(shares: nat)
    ensures Notional(shares, 0) == 0
  {
  }

  /** The score of a parent: what it paid beyond the benchmark, or got below it, weighted; a weighted penalty for what it
      left unfilled, at the benchmark; and one for what its fills lost by the mark. */
  ghost predicate ScoredAs(plan: ParentPlan, fills: seq<Sessions.Fill>, mark: Option<int>, r: Objective)
    requires FillShares(fills) <= plan.target && plan.benchmark > 0
  {
    && r.filled == FillShares(fills) && r.unfilled == plan.target - FillShares(fills)
    && r.rawShortfall == (if plan.side.Buy? then FillNotional(fills) + FillFees(fills) - Notional(r.filled, plan.benchmark)
                          else Notional(r.filled, plan.benchmark) - (FillNotional(fills) - FillFees(fills)))
    && CutShare(r.shortfall, plan.shortfallPpm, r.rawShortfall)
    && CutShare(r.nonFill, plan.nonFillPpm, Notional(plan.target - FillShares(fills), plan.benchmark))
    && CutShare(r.adverse, plan.adversePpm, if mark.Some? then Lost(plan.side, fills, mark.value) else 0)
    && r.total == r.shortfall + r.nonFill + r.adverse
  }

  /** A parent buy is scored with every weight at one. */
  lemma ScoresInFull(p: Parent, fills: seq<Sessions.Fill>, time: int, mark: int)
    requires PlanOf(p).Valid() && mark >= 0 && Evaluate(PlanOf(p), fills, time, Some(mark)).Ok?
    ensures var r := Evaluate(PlanOf(p), fills, time, Some(mark)).value;
      && r.shortfall == FillNotional(fills) + FillFees(fills) - Notional(r.filled, p.benchmark)
      && r.nonFill == Notional(p.target - r.filled, p.benchmark) && r.adverse == Lost(Buy, fills, mark)
      && r.total == r.shortfall + r.nonFill + r.adverse
  {
    hide PpmOf, CutShare, Notional, AdverseMarkout, Lost;
    var r := Evaluate(PlanOf(p), fills, time, Some(mark)).value;
    AdverseIsLost(Buy, fills, mark);
    WholePpm(r.rawShortfall);
    WholePpm(Notional(r.unfilled, p.benchmark));
    WholePpm(AdverseMarkout(Buy, fills, mark));
  }

  lemma WholePpm(x: int)
    ensures PpmOf(x, PPM) == x
  {
    DivBracket((if x < 0 then -x else x) * PPM, PPM, if x < 0 then -x else x);
  }

  /** Scoring succeeds exactly at or after the deadline, with fills by the deadline that do not exceed the target, and with
      a positive mark where adverse selection counts. */
  lemma ScoresParent(plan: ParentPlan, fills: seq<Sessions.Fill>, time: int, mark: Option<int>)
    requires plan.Valid() && (mark.Some? ==> mark.value >= 0)
    ensures var r := Evaluate(plan, fills, time, mark);
      && (r.Ok? <==>
            && plan.deadline <= time && (forall f <- fills :: f.time <= plan.deadline) && FillShares(fills) <= plan.target
            && (plan.adversePpm == 0 || (mark.Some? && mark.value > 0)))
      && (r.Ok? ==> ScoredAs(plan, fills, mark, r.value))
  {
    hide PpmOf, CutShare, Notional, AdverseMarkout, Lost;
    var r := Evaluate(plan, fills, time, mark);
    if mark.Some? { AdverseIsLost(plan.side, fills, mark.value); }
    if r.Ok? {
      PpmIsCutShare(r.value.rawShortfall, plan.shortfallPpm);
      PpmIsCutShare(Notional(r.value.unfilled, plan.benchmark), plan.nonFillPpm);
      PpmIsCutShare(if mark.Some? then AdverseMarkout(plan.side, fills, mark.value) else 0, plan.adversePpm);
    }
  }
}
