/** What an episode cannot know: tapes and wallets that agree up to some time lead to the same orders up to
    that time, whatever comes later. */
module TapeForesight {
  import opened FixedPoint
  import opened Fees
  import opened Market
  import opened Ladders
  import opened TakerWalk
  import opened Affordability
  import opened Reconstruction
  import opened Tapes
  import opened SelfImpact
  import opened Sending
  import opened Policies
  import opened Sessions
  import opened ParentDriver
  import opened Episodes
  import opened EpisodeShape
  import opened Pacing

  // ---- agreeing up to a time ----------------------------------------------------------------

  /** The lists share a prefix, which holds every row stamped at or before `time`. */
  ghost predicate RowsAgree(a: seq<Row>, b: seq<Row>, m: nat, time: int)
  {
    && m <= |a| && m <= |b| && a[..m] == b[..m]
    && (forall i :: 0 <= i < m ==> a[i].time <= time)
    && (forall i :: m <= i < |a| ==> a[i].time > time) && (forall i :: m <= i < |b| ==> b[i].time > time)
  }

  ghost predicate TradesAgree(a: seq<Trade>, b: seq<Trade>, k: nat, time: int)
  {
    && k <= |a| && k <= |b| && a[..k] == b[..k]
    && (forall i :: 0 <= i < k ==> a[i].time <= time)
    && (forall i :: k <= i < |a| ==> a[i].time > time) && (forall i :: k <= i < |b| ==> b[i].time > time)
  }

  ghost predicate SpansAgree(a: seq<Interval>, b: seq<Interval>, time: int)
  {
    forall t: Token, at: int :: at <= time ==> IsUncertain(a, t, at) == IsUncertain(b, t, at)
  }

  /** Two venues with the same market, execution model and latencies, on tapes that agree up to `time`. */
  ghost predicate VenuesAgree(v: Venue, w: Venue, m: nat, k: nat, time: int)
  {
    && v.realism == w.realism && v.latency == w.latency
    && v.tape.start == w.tape.start && v.tape.end == w.tape.end
    && v.tape.minimum == w.tape.minimum && v.tape.tick == w.tape.tick
    && RowsAgree(v.tape.rows, w.tape.rows, m, time) && TradesAgree(v.tape.trades, w.tape.trades, k, time)
    && SpansAgree(v.tape.spans, w.tape.spans, time)
  }

  /** Both wallets answer at an instant, and alike. */
  ghost predicate CashAgreesAt(a: CashSource, b: CashSource, at: int)
  {
    && a.Some? == b.Some?
    && (a.Some? ==> a.value.requires(at) && b.value.requires(at) && a.value(at) == b.value(at))
  }

  /** Both wallets answer from the start on, and alike up to `time`. */
  ghost predicate CashAgrees(a: CashSource, b: CashSource, start: int, time: int)
  {
    && a.Some? == b.Some?
    && (a.Some? ==> forall at :: start <= at ==> a.value.requires(at) && b.value.requires(at))
    && (a.Some? ==> forall at :: start <= at <= time ==> a.value(at) == b.value(at))
  }

  lemma AgreeFacts(v: Venue, w: Venue, m: nat, k: nat, time: int)
    requires VenuesAgree(v, w, m, k, time)
    ensures v.realism == w.realism && v.latency == w.latency && m <= |v.tape.rows| && m <= |w.tape.rows|
    ensures v.tape.start == w.tape.start && v.tape.end == w.tape.end
  {
  }

  lemma Symmetric(v: Venue, w: Venue, m: nat, k: nat, time: int)
    requires VenuesAgree(v, w, m, k, time)
    ensures VenuesAgree(w, v, m, k, time)
  {
    var a, b := v.tape, w.tape;
    forall i | 0 <= i < m ensures b.rows[i].time <= time { assert b.rows[..m][i] == a.rows[..m][i]; }
    forall i | 0 <= i < k ensures b.trades[i].time <= time { assert b.trades[..k][i] == a.trades[..k][i]; }
  }

  // ---- the book an order meets --------------------------------------------------------------

  lemma {:induction false} RowAtEarly(rows: seq<Row>, m: nat, t: Token, at: int)
    requires m <= |rows| && forall i :: m <= i < |rows| ==> rows[i].time > at
    ensures RowAt(rows, t, at) == RowAt(rows[..m], t, at)
    decreases |rows|
  {
    if m == |rows| {
      assert rows[..m] == rows;
    } else {
      var init := rows[..|rows| - 1];
      assert init[..m] == rows[..m];
      RowAtEarly(init, m, t, at);
    }
  }

  lemma SameRowAt(v: Venue, w: Venue, m: nat, k: nat, time: int, t: Token, at: int)
    requires VenuesAgree(v, w, m, k, time) && at <= time
    ensures RowAt(v.tape.rows, t, at) == RowAt(w.tape.rows, t, at)
    ensures RowAt(v.tape.rows, t, at).Some? ==>
      RowAt(v.tape.rows, t, at).value < m && v.tape.rows[RowAt(v.tape.rows, t, at).value] == w.tape.rows[RowAt(v.tape.rows, t, at).value]
  {
    hide RowAt;
    RowAtEarly(v.tape.rows, m, t, at);
    RowAtEarly(w.tape.rows, m, t, at);
    var x := RowAt(v.tape.rows, t, at);
    if x.Some? { assert v.tape.rows[..m][x.value] == w.tape.rows[..m][x.value]; }
  }

  lemma {:induction false} ReplayedEarly(record: Record, a: seq<Row>, b: seq<Row>, m: nat, t: Token, lo: nat, hi: nat)
    requires m <= |a| && m <= |b| && a[..m] == b[..m] && hi <= m
    ensures Replayed(record, a, t, lo, hi) == Replayed(record, b, t, lo, hi)
  {
    if lo < hi {
      ReplayedEarly(record, a, b, m, t, lo, hi - 1);
      assert a[hi - 1] == a[..m][hi - 1] == b[..m][hi - 1] == b[hi - 1];
    }
  }

  lemma SameReconciled(v: Venue, w: Venue, m: nat, k: nat, time: int, s: Impact, t: Token, row: nat)
    requires VenuesAgree(v, w, m, k, time) && row < m
    ensures Reconciled(s.record, s.cursor, v.tape.rows, t, row) == Reconciled(s.record, s.cursor, w.tape.rows, t, row)
  {
    ReplayedEarly(s.record, v.tape.rows, w.tape.rows, m, t, if t in s.cursor then s.cursor[t] + 1 else 0, row + 1);
  }

  /** An order that arrives by then, or past its own deadline, fares the same. */
  lemma SentAgrees(v: Venue, w: Venue, m: nat, k: nat, time: int, s: Impact, o: Order, a: CashSource, b: CashSource)
    requires v.realism.Valid() && VenuesAgree(v, w, m, k, time)
    requires var arrival := o.decision + v.latency(s.draws);
      (arrival <= time && CashAt(a, arrival) == CashAt(b, arrival)) || (o.deadline.Some? && arrival > o.deadline.value)
    ensures SentBy(v, s, o, a) == SentBy(w, s, o, b)
  {
    hide RowAt, Reconciled, TakenOn, Matched, Noted, IsUncertain, RequestOf;
    var arrival := o.decision + v.latency(s.draws);
    if arrival <= time {
      SameRowAt(v, w, m, k, time, o.token, arrival);
      var at := RowAt(v.tape.rows, o.token, arrival);
      if at.Some? {
        SameReconciled(v, w, m, k, time, s, o.token, at.value);
        SameRequest(v, w, o, arrival, at.value);
      }
    }
  }

  lemma SameRequest(v: Venue, w: Venue, o: Order, arrival: int, row: nat)
    requires v.realism == w.realism && v.tape.minimum == w.tape.minimum && v.tape.tick == w.tape.tick && v.realism.Valid()
    requires row < |v.tape.rows| && row < |w.tape.rows| && v.tape.rows[row] == w.tape.rows[row]
    ensures forall ladder: Ladder ::
      RequestOf(v.tape, v.realism, o, arrival, row, ladder) == RequestOf(w.tape, w.realism, o, arrival, row, ladder)
  {
    hide MaxAffordable;
  }

  // ---- wallets ------------------------------------------------------------------------------

  lemma RunCashAgrees(p: Params, a: CashSource, b: CashSource, debited: int, at: int)
    requires CashAgreesAt(a, b, at)
    ensures CashAgreesAt(RunCash(p, a, debited), RunCash(p, b, debited), at)
  {
    var x, y := RunCash(p, a, debited), RunCash(p, b, debited);
    assert x.value.requires(at) && y.value.requires(at);
    var fallback := if p.orderNotional.Some? then p.orderNotional.value else 0x7FFF_FFFF_FFFF_FFFF;
    assert x.value(at) == Max(0, (if a.Some? then Max(0, a.value(at)) else fallback) - debited);
    assert y.value(at) == Max(0, (if b.Some? then Max(0, b.value(at)) else fallback) - debited);
  }

  lemma ChildCashAgrees(a: CashSource, b: CashSource, maxSpend: Option<int>, sessionCash: int, spent: int, at: int)
    requires CashAgreesAt(a, b, at)
    ensures CashAgreesAt(ChildCash(a, maxSpend, sessionCash, spent), ChildCash(b, maxSpend, sessionCash, spent), at)
  {
    var x, y := ChildCash(a, maxSpend, sessionCash, spent), ChildCash(b, maxSpend, sessionCash, spent);
    assert x.value.requires(at) && y.value.requires(at);
    if a.Some? {
      assert x.value(at) == Min(sessionCash, Max(0, Max(0, a.value(at)) - spent));
      assert y.value(at) == Min(sessionCash, Max(0, Max(0, b.value(at)) - spent));
    } else {
      var fallback := if maxSpend.Some? then maxSpend.value else sessionCash;
      assert x.value(at) == Min(sessionCash, Max(0, fallback - spent));
      assert y.value(at) == Min(sessionCash, Max(0, fallback - spent));
    }
  }

  lemma SpendAgrees(p: Params, a: CashSource, b: CashSource, debited: int, at: int)
    requires CashAgreesAt(a, b, at)
    ensures SpendOf(p, a, debited, at) == SpendOf(p, b, debited, at)
  {
    hide RunCash;
    RunCashAgrees(p, a, b, debited, at);
  }

  // ---- a parent -----------------------------------------------------------------------------

  lemma {:induction false} VolumeEarly(trades: seq<Trade>, k: nat, token: Token, start: int, now: int)
    requires k <= |trades| && forall i :: k <= i < |trades| ==> trades[i].time > now
    ensures PublicVolume(trades, token, start, now) == PublicVolume(trades[..k], token, start, now)
    decreases |trades|
  {
    if k == |trades| {
      assert trades[..k] == trades;
    } else {
      var init := trades[..|trades| - 1];
      assert init[..k] == trades[..k];
      VolumeEarly(init, k, token, start, now);
    }
  }

  lemma ActionAgrees(v: Venue, w: Venue, m: nat, k: nat, time: int, p: Parent, st: ParentState, now: int, row: nat)
    requires VenuesAgree(v, w, m, k, time) && p.policy.Valid() && PlanOf(p).Valid() && row < m && now <= time
    ensures ActionAt(v, p, st, now, row) == ActionAt(w, p, st, now, row)
    ensures Refreshed(v, p, st.impact, row) == Refreshed(w, p, st.impact, row)
  {
    hide Policies.Decide, Reconciled, Net, TakenOn, PublicVolume;
    SameReconciled(v, w, m, k, time, st.impact, p.token, row);
    VolumeEarly(v.tape.trades, k, p.token, p.decision, now);
    VolumeEarly(w.tape.trades, k, p.token, p.decision, now);
    assert v.tape.rows[..m][row] == w.tape.rows[..m][row];
  }

  lemma UsableAgrees(v: Venue, w: Venue, m: nat, k: nat, time: int, p: Parent, now: int)
    requires v.realism.Valid() && VenuesAgree(v, w, m, k, time) && now <= time
    ensures UsableRow(v, p, now) == UsableRow(w, p, now)
    ensures UsableRow(v, p, now).Some? ==> UsableRow(v, p, now).value < m
  {
    hide RowAt, IsUncertain;
    SameRowAt(v, w, m, k, time, p.token, now);
  }

  /** From `j` on everything arrives after `time`, and beyond `j` it is decided after `time` as well. */
  ghost predicate ChildrenLater(x: seq<Outcome>, j: nat, time: int)
  {
    forall i :: j <= i < |x| ==> x[i].arrival > time && (i > j ==> x[i].decision > time)
  }

  /** If either sends child `j` by `time`, both send it at the same instant, and it arrives at the same instant. */
  ghost predicate ChildInBoth(x: seq<Outcome>, y: seq<Outcome>, j: nat, time: int)
  {
    (j < |x| && x[j].decision <= time) || (j < |y| && y[j].decision <= time) ==>
      j < |x| && j < |y| && x[j].decision == y[j].decision && x[j].arrival == y[j].arrival
  }

  /** The same children decided up to `time`, and the same outcomes up to the first that arrives later. */
  ghost predicate SharePast(x: seq<Outcome>, y: seq<Outcome>, j: nat, time: int)
  {
    && j <= |x| && j <= |y| && x[..j] == y[..j]
    && ChildrenLater(x, j, time) && ChildrenLater(y, j, time) && ChildInBoth(x, y, j, time)
  }

  /** The parents may differ in a child that is still on its way, and then both wait for it past `time`. */
  ghost predicate Parted(x: ParentState, y: ParentState, j: nat, time: int)
  {
    SharePast(x.outcomes, y.outcomes, j, time) && x.session.notBefore > time && y.session.notBefore > time
  }

  ghost predicate CashAgreesFrom(a: CashSource, b: CashSource, now: int, time: int)
  {
    forall at :: now <= at <= time ==> CashAgreesAt(a, b, at)
  }

  lemma TurnAgrees(v: Venue, w: Venue, m: nat, k: nat, time: int, p: Parent, a: CashSource, b: CashSource,
                   st: ParentState, now: int, row: nat)
    requires v.realism.Valid() && VenuesAgree(v, w, m, k, time) && p.policy.Valid() && PlanOf(p).Valid()
    requires row < m && now <= time && CashAgreesFrom(a, b, now, time)
    ensures var x, y := TurnOf(v, p, a, st, now, row), TurnOf(w, p, b, st, now, row);
      x == y || (p.deadline > time && Parted(x, y, |st.outcomes|, time))
  {
    hide ActionAt, ChildCash, SentBy, Refreshed, VenuesAgree;
    AgreeFacts(v, w, m, k, time);
    ActionAgrees(v, w, m, k, time, p, st, now, row);
    TurnShape(v, p, a, st, now, row);
    TurnShape(w, p, b, st, now, row);
    var action := ActionAt(v, p, st, now, row);
    if action.TakerSlice? { ChildAgrees(v, w, m, k, time, p, a, b, st, now, row, action.size); }
  }

  lemma ChildAgrees(v: Venue, w: Venue, m: nat, k: nat, time: int, p: Parent, a: CashSource, b: CashSource,
                    st: ParentState, now: int, row: nat, size: int)
    requires v.realism.Valid() && VenuesAgree(v, w, m, k, time) && row < m && now <= time && CashAgreesFrom(a, b, now, time)
    requires row < |v.tape.rows| && row < |w.tape.rows| && w.realism.Valid()
    requires Refreshed(v, p, st.impact, row) == Refreshed(w, p, st.impact, row)
    ensures v.latency == w.latency
    ensures ChildSent(v, p, a, st, now, row, size) == ChildSent(w, p, b, st, now, row, size)
      || (p.deadline > time && now + v.latency(st.impact.draws) > time)
  {
    hide ChildCash, SentBy, VenuesAgree;
    AgreeFacts(v, w, m, k, time);
    var arrival := now + v.latency(st.impact.draws);
    var spent := CostOf(st.outcomes);
    if arrival <= time { ChildCashAgrees(a, b, p.maxSpend, st.session.cash, spent, arrival); }
    if arrival <= time || arrival > p.deadline {
      SentAgrees(v, w, m, k, time, Refreshed(v, p, st.impact, row), ChildOrder(p, now, size),
        ChildCash(a, p.maxSpend, st.session.cash, spent), ChildCash(b, p.maxSpend, st.session.cash, spent));
    }
  }

  lemma StepAgrees(v: Venue, w: Venue, m: nat, k: nat, time: int, p: Parent, a: CashSource, b: CashSource,
                   st: ParentState, now: int)
    requires v.realism.Valid() && VenuesAgree(v, w, m, k, time) && p.policy.Valid() && PlanOf(p).Valid()
    requires now <= time && CashAgreesFrom(a, b, now, time)
    ensures w.realism.Valid()
    ensures var x, y := ParentStep(v, p, a, st, now), ParentStep(w, p, b, st, now);
      x == y || (p.deadline > time && Parted(x, y, |st.outcomes|, time))
  {
    hide TurnOf, UsableRow, RowsAgree, TradesAgree, SpansAgree, Parted;
    UsableAgrees(v, w, m, k, time, p, now);
    var row := UsableRow(v, p, now);
    if row.Some? { TurnAgrees(v, w, m, k, time, p, a, b, st, now, row.value); }
  }

  /** While its child is on its way a parent only waits. */
  lemma StepWaits(v: Venue, p: Parent, cash: CashSource, st: ParentState, now: int)
    requires v.realism.Valid() && p.policy.Valid() && PlanOf(p).Valid() && now < st.session.notBefore
    ensures var x := ParentStep(v, p, cash, st, now);
      x.outcomes == st.outcomes && x.session.notBefore == st.session.notBefore
  {
    hide Refreshed, UsableRow;
  }

  lemma {:induction false} ParentPast(v: Venue, w: Venue, m: nat, k: nat, time: int, p: Parent, a: CashSource, b: CashSource,
                                      s: Impact, offsets: seq<nat>) returns (j: nat)
    requires v.realism.Valid() && VenuesAgree(v, w, m, k, time) && p.policy.Valid() && PlanOf(p).Valid()
    requires (forall x <- offsets :: p.decision + x <= time) && CashAgreesFrom(a, b, p.decision, time)
    requires SessionCash(p, a) == SessionCash(p, b)
    ensures w.realism.Valid()
    ensures var x, y := ParentAfter(v, p, a, s, offsets), ParentAfter(w, p, b, s, offsets);
      x == y || (p.deadline > time && Parted(x, y, j, time))
  {
    hide ParentStep, RowsAgree, TradesAgree, SpansAgree, SharePast;
    j := 0;
    if offsets != [] {
      var init, last := offsets[..|offsets| - 1], offsets[|offsets| - 1];
      var now := p.decision + last;
      assert last in offsets && forall x <- init :: x in offsets;
      j := ParentPast(v, w, m, k, time, p, a, b, s, init);
      var x, y := ParentAfter(v, p, a, s, init), ParentAfter(w, p, b, s, init);
      if x == y {
        StepAgrees(v, w, m, k, time, p, a, b, x, now);
        j := |x.outcomes|;
      } else {
        StepWaits(v, p, a, x, now);
        StepWaits(w, p, b, y, now);
      }
    }
  }

  /** Turns after `time` only add children that are decided and arrive after it. */
  lemma {:induction false} ParentLater(v: Venue, p: Parent, cash: CashSource, s: Impact, offsets: seq<nat>, n: nat, time: int)
    requires v.realism.Valid() && p.policy.Valid() && PlanOf(p).Valid() && n <= |offsets|
    requires forall i :: n <= i < |offsets| ==> p.decision + offsets[i] > time
    ensures var x, y := ParentAfter(v, p, cash, s, offsets[..n]).outcomes, ParentAfter(v, p, cash, s, offsets).outcomes;
      x <= y && forall i :: |x| <= i < |y| ==> y[i].arrival > time && y[i].decision > time
    decreases |offsets|
  {
    hide ParentStep;
    if n == |offsets| {
      assert offsets[..n] == offsets;
    } else {
      var init, last := offsets[..|offsets| - 1], offsets[|offsets| - 1];
      assert init[..n] == offsets[..n];
      ParentLater(v, p, cash, s, init, n, time);
      StepShape(v, p, cash, ParentAfter(v, p, cash, s, init), p.decision + last);
    }
  }

  // ---- decision instants --------------------------------------------------------------------

  ghost predicate Increasing(xs: seq<nat>) { forall i, j :: 0 <= i < j < |xs| ==> xs[i] < xs[j] }

  /** Increasing lists with the same small members share the prefix of those. */
  lemma {:induction false} SamePrefix(xs: seq<nat>, ys: seq<nat>, top: int) returns (n: nat)
    requires Increasing(xs) && Increasing(ys) && forall z: nat :: z <= top ==> (z in xs <==> z in ys)
    ensures n <= |xs| && n <= |ys| && xs[..n] == ys[..n] && forall z <- xs[..n] :: z <= top
    ensures (forall i :: n <= i < |xs| ==> xs[i] > top) && (forall i :: n <= i < |ys| ==> ys[i] > top)
  {
    n := 0;
    if xs != [] && xs[0] <= top {
      FirstShared(xs, ys, top);
      SmallerTails(xs, ys, top);
      n := SamePrefix(xs[1..], ys[1..], top);
      assert xs[..n + 1] == [xs[0]] + xs[1..][..n] && ys[..n + 1] == [ys[0]] + ys[1..][..n];
      assert forall i :: n + 1 <= i < |xs| ==> xs[i] == xs[1..][i - 1];
      assert forall i :: n + 1 <= i < |ys| ==> ys[i] == ys[1..][i - 1];
      n := n + 1;
    } else if ys != [] && ys[0] <= top {
      FirstShared(ys, xs, top);
    }
  }

  lemma FirstShared(xs: seq<nat>, ys: seq<nat>, top: int)
    requires Increasing(xs) && Increasing(ys) && forall z: nat :: z <= top ==> (z in xs <==> z in ys)
    requires xs != [] && xs[0] <= top
    ensures ys != [] && ys[0] == xs[0]
  {
    assert xs[0] in xs;
    var i :| 0 <= i < |ys| && ys[i] == xs[0];
    assert ys[0] <= ys[i];
    assert ys[0] in ys;
    var j :| 0 <= j < |xs| && xs[j] == ys[0];
  }

  lemma SmallerTails(xs: seq<nat>, ys: seq<nat>, top: int)
    requires Increasing(xs) && Increasing(ys) && forall z: nat :: z <= top ==> (z in xs <==> z in ys)
    requires xs != [] && ys != [] && xs[0] == ys[0]
    ensures Increasing(xs[1..]) && Increasing(ys[1..])
    ensures forall z: nat :: z <= top ==> (z in xs[1..] <==> z in ys[1..])
  {
    assert xs == [xs[0]] + xs[1..] && ys == [ys[0]] + ys[1..];
    forall z: nat | z <= top ensures z in xs[1..] <==> z in ys[1..] {
      assert z in xs[1..] <==> z in xs && z != xs[0];
      assert z in ys[1..] <==> z in ys && z != ys[0];
    }
  }

  lemma OffsetsAgree(v: Venue, w: Venue, m: nat, k: nat, time: int, p: Parent) returns (n: nat)
    requires VenuesAgree(v, w, m, k, time) && p.decision < p.deadline
    ensures var x, y := OffsetsOf(v, p), OffsetsOf(w, p);
      && n <= |x| && n <= |y| && x[..n] == y[..n] && (forall z <- x[..n] :: p.decision + z <= time)
      && (forall i :: n <= i < |x| ==> p.decision + x[i] > time) && (forall i :: n <= i < |y| ==> p.decision + y[i] > time)
    ensures p.deadline <= time ==> OffsetsOf(v, p) == OffsetsOf(w, p) && n == |OffsetsOf(v, p)|
  {
    hide DecisionOffsets, VenuesAgree, OffsetsOf;
    var x, y := OffsetsOf(v, p), OffsetsOf(w, p);
    OffsetsIncrease(v, p);
    OffsetsIncrease(w, p);
    SameOffsets(v, w, m, k, time, p);
    n := SamePrefix(x, y, time - p.decision);
    if p.deadline <= time {
      assert x != [] ==> p.decision + x[|x| - 1] <= p.deadline;
      assert y != [] ==> p.decision + y[|y| - 1] <= p.deadline;
      assert x[..n] == x && y[..n] == y;
    }
  }

  lemma OffsetsIncrease(v: Venue, p: Parent)
    requires p.decision < p.deadline
    ensures Increasing(OffsetsOf(v, p)) && forall i :: 0 <= i < |OffsetsOf(v, p)| ==> p.decision + OffsetsOf(v, p)[i] <= p.deadline
  {
    hide DecisionOffsets;
    forall i | 0 <= i < |OffsetsOf(v, p)| ensures p.decision + OffsetsOf(v, p)[i] <= p.deadline {
      OffsetsWithin(v.tape, p.token, p.decision, p.deadline - p.decision, OffsetsOf(v, p)[i]);
    }
  }

  lemma SameOffsets(v: Venue, w: Venue, m: nat, k: nat, time: int, p: Parent)
    requires VenuesAgree(v, w, m, k, time) && p.decision < p.deadline
    ensures forall z: nat :: z <= time - p.decision ==> (z in OffsetsOf(v, p) <==> z in OffsetsOf(w, p))
  {
    hide DecisionOffsets, VenuesAgree, OffsetsOf;
    Symmetric(v, w, m, k, time);
    forall z: nat | z <= time - p.decision ensures z in OffsetsOf(v, p) <==> z in OffsetsOf(w, p) {
      if z in OffsetsOf(v, p) { SameOffset(v, w, m, k, time, p, z); }
      if z in OffsetsOf(w, p) { SameOffset(w, v, m, k, time, p, z); }
    }
  }

  lemma SameOffset(v: Venue, w: Venue, m: nat, k: nat, time: int, p: Parent, z: nat)
    requires VenuesAgree(v, w, m, k, time) && p.decision < p.deadline && p.decision + z <= time
    requires z in OffsetsOf(v, p)
    ensures z in OffsetsOf(w, p)
  {
    hide SpansAgree, RowsAgree, TradesAgree;
    var horizon: nat := p.deadline - p.decision;
    if z != 0 && z != horizon && !(z < horizon && z % DECISION_INTERVAL == 0) {
      if r :| r in v.tape.rows && r.token == p.token && p.decision <= r.time <= p.decision + horizon && r.time - p.decision == z {
        SharedRow(v.tape.rows, w.tape.rows, m, time, r);
      } else {
        var t :| t in v.tape.trades && t.token == p.token && p.decision <= t.time <= p.decision + horizon && t.time - p.decision == z;
        SharedTrade(v.tape.trades, w.tape.trades, k, time, t);
      }
    }
  }

  lemma SharedRow(a: seq<Row>, b: seq<Row>, m: nat, time: int, r: Row)
    requires RowsAgree(a, b, m, time) && r in a && r.time <= time
    ensures r in b
  {
    var i :| 0 <= i < |a| && a[i] == r;
    assert b[..m][i] == r;
  }

  lemma SharedTrade(a: seq<Trade>, b: seq<Trade>, k: nat, time: int, t: Trade)
    requires TradesAgree(a, b, k, time) && t in a && t.time <= time
    ensures t in b
  {
    var i :| 0 <= i < |a| && a[i] == t;
    assert b[..k][i] == t;
  }

  lemma Extends(x: seq<Outcome>, y: seq<Outcome>, x': seq<Outcome>, y': seq<Outcome>, j: nat, time: int)
    requires SharePast(x, y, j, time) && x <= x' && y <= y'
    requires forall i :: |x| <= i < |x'| ==> x'[i].arrival > time && x'[i].decision > time
    requires forall i :: |y| <= i < |y'| ==> y'[i].arrival > time && y'[i].decision > time
    ensures SharePast(x', y', j, time)
  {
    assert x'[..j] == x[..j] && y'[..j] == y[..j];
    assert forall i :: 0 <= i < |x| ==> x'[i] == x[i];
    assert forall i :: 0 <= i < |y| ==> y'[i] == y[i];
  }

  /** A parent whose whole life lies in the shared past is the same; any other sends the same children by then,
      and shares their outcomes up to the first that is still on its way. */
  lemma ParentForesight(v: Venue, w: Venue, m: nat, k: nat, time: int, p: Parent, a: CashSource, b: CashSource, s: Impact)
    returns (j: nat)
    requires v.realism.Valid() && VenuesAgree(v, w, m, k, time) && p.policy.Valid() && PlanOf(p).Valid()
    requires p.decision <= time && CashAgreesFrom(a, b, p.decision, time) && SessionCash(p, a) == SessionCash(p, b)
    ensures w.realism.Valid()
    ensures var x, y := ParentAfter(v, p, a, s, OffsetsOf(v, p)), ParentAfter(w, p, b, s, OffsetsOf(w, p));
      if p.deadline <= time then x == y else SharePast(x.outcomes, y.outcomes, j, time)
  {
    hide ParentAfter, OffsetsOf, VenuesAgree, CashAgreesFrom, SharePast;
    AgreeFacts(v, w, m, k, time);
    var n := OffsetsAgree(v, w, m, k, time, p);
    var xs, ys := OffsetsOf(v, p), OffsetsOf(w, p);
    j := ParentPast(v, w, m, k, time, p, a, b, s, xs[..n]);
    var x, y := ParentAfter(v, p, a, s, xs[..n]), ParentAfter(w, p, b, s, ys[..n]);
    if p.deadline <= time {
      assert xs[..n] == xs && ys[..n] == ys;
    } else {
      ParentLater(v, p, a, s, xs, n, time);
      ParentLater(w, p, b, s, ys, n, time);
      if x == y {
        j := |x.outcomes|;
        AllShared(x.outcomes, time);
      }
      Extends(x.outcomes, y.outcomes, ParentAfter(v, p, a, s, xs).outcomes, ParentAfter(w, p, b, s, ys).outcomes, j, time);
    }
  }

  lemma AllShared(x: seq<Outcome>, time: int)
    ensures SharePast(x, x, |x|, time)
  {
  }

  // ---- an episode ---------------------------------------------------------------------------

  /** The same orders with the same outcomes up to `j`; everything beyond arrives after `time`. */
  ghost predicate OrdersShare(x: seq<SimulatedOrder>, y: seq<SimulatedOrder>, j: nat, time: int)
  {
    && j <= |x| && j <= |y| && x[..j] == y[..j]
    && (forall i :: j <= i < |x| ==> x[i].arrival > time) && (forall i :: j <= i < |y| ==> y[i].arrival > time)
  }

  predicate DecidedAlike(x: SimulatedOrder, y: SimulatedOrder)
  {
    x.kind == y.kind && x.token == y.token && x.decision == y.decision && x.arrival == y.arrival
  }

  /** Besides, both decide the same by `time`: if either has decided order `j` by then, both have, alike, and
      every order after it is decided later. */
  ghost predicate DecisionsShare(x: seq<SimulatedOrder>, y: seq<SimulatedOrder>, j: nat, time: int)
  {
    && OrdersShare(x, y, j, time)
    && (forall i :: j < i < |x| ==> x[i].decision > time) && (forall i :: j < i < |y| ==> y[i].decision > time)
    && ((j < |x| && x[j].decision <= time) || (j < |y| && y[j].decision <= time) ==>
          j < |x| && j < |y| && DecidedAlike(x[j], y[j]))
  }

  /** No order is decided at or before `time` any more. */
  ghost predicate Parked(p: Params, e: EpisodeState, time: int)
  {
    !e.status.Going?
    || if e.run.shares > 0 then e.run.effective > time else e.run.nextEntry > time || e.run.entries >= p.maxEntries
  }

  /** No order can arrive at or before `time` any more, after a row at `was`. */
  ghost predicate Late(latency: nat -> nat, p: Params, e: EpisodeState, was: int, time: int)
  {
    || Parked(p, e, time)
    || (p.entry.Immediate? && e.run.shares <= 0 && Max(e.run.nextEntry, was) + latency(e.impact.draws) > time)
  }

  /** The wallets agree at the deadline of every share-sized parent decided by `time`: such a parent is sized
      from the cash at its deadline. */
  ghost predicate DeadlinesAgree(v: Venue, p: Params, a: CashSource, b: CashSource, time: int)
  {
    p.entry.Sequential? && p.orderNotional.None? ==>
      forall at :: v.tape.start <= at <= time ==> CashAgreesAt(a, b, DeadlineOf(v, p, at))
  }

  /** What the two runs may differ in besides the future; `decisions` asks for runs that also decide alike. */
  ghost predicate Foreseeable(v: Venue, p: Params, a: CashSource, b: CashSource, time: int, decisions: bool)
  {
    && CashAgrees(a, b, v.tape.start, time) && DeadlinesAgree(v, p, a, b, time)
    && (p.entry.Immediate? ==>
          if decisions then RetriesWait(v, p, a, 0) && RetriesWait(v, p, b, 0) else InTurn(v, p, a, 0) && InTurn(v, p, b, 0))
  }

  lemma CashFrom(a: CashSource, b: CashSource, start: int, now: int, time: int)
    requires CashAgrees(a, b, start, time) && start <= now
    ensures CashAgreesFrom(a, b, now, time)
  {
  }

  lemma RunCashFrom(p: Params, a: CashSource, b: CashSource, debited: int, now: int, time: int)
    requires CashAgreesFrom(a, b, now, time)
    ensures CashAgreesFrom(RunCash(p, a, debited), RunCash(p, b, debited), now, time)
  {
    hide RunCash, CashAgreesAt;
    forall at | now <= at <= time ensures CashAgreesAt(RunCash(p, a, debited), RunCash(p, b, debited), at) {
      RunCashAgrees(p, a, b, debited, at);
    }
  }

  /** Two runs after the same row: still the same, or past `time` with what they share up to `j`. */
  ghost predicate Together(v: Venue, p: Params, x: EpisodeState, y: EpisodeState, j: nat, was: int, time: int, decisions: bool)
  {
    || x == y
    || if decisions then DecisionsShare(x.run.orders, y.run.orders, j, time) && Parked(p, x, time) && Parked(p, y, time)
       else OrdersShare(x.run.orders, y.run.orders, j, time) && Late(v.latency, p, x, was, time) && Late(v.latency, p, y, was, time)
  }

  lemma ExitAgrees(v: Venue, w: Venue, m: nat, k: nat, time: int, p: Params, r: Run, s: Impact, bid: Option<int>,
                   token: Token, at: int, decisions: bool)
    requires v.realism.Valid() && VenuesAgree(v, w, m, k, time) && at <= time
    ensures w.realism.Valid()
    ensures var (x, s') := ExitStep(v, p, r, s, bid, token, at); var (y, s'') := ExitStep(w, p, r, s, bid, token, at);
      Together(v, p, EpisodeState(x, s', if x.shares <= 0 then Over else Going),
               EpisodeState(y, s'', if y.shares <= 0 then Over else Going), |r.orders|, at, time, decisions)
  {
    hide SentBy, RowsAgree, TradesAgree, SpansAgree, OrdersShare, DecisionsShare, ReasonOf;
    AgreeFacts(v, w, m, k, time);
    ExitShape(v, p, r, s, bid, token, at);
    ExitShape(w, p, r, s, bid, token, at);
    assert ChooseExit(p, v.tape, r, bid, at) == ChooseExit(p, w.tape, r, bid, at);
    var choice := ChooseExit(p, v.tape, r, bid, at);
    if choice.Some? && at + v.latency(s.draws) <= time {
      SentAgrees(v, w, m, k, time, s, Order(Sell, token, at, choice.value.1, None, false, None, None), None, None);
    } else if choice.Some? {
      PartAtLast(r.orders, ExitStep(v, p, r, s, bid, token, at).0.orders[|r.orders|],
        ExitStep(w, p, r, s, bid, token, at).0.orders[|r.orders|], time);
    }
  }

  /** Two runs that part at an order still on its way. */
  lemma PartAtLast(orders: seq<SimulatedOrder>, x: SimulatedOrder, y: SimulatedOrder, time: int)
    requires x.arrival > time && DecidedAlike(x, y)
    ensures OrdersShare(orders + [x], orders + [y], |orders|, time)
    ensures DecisionsShare(orders + [x], orders + [y], |orders|, time)
  {
  }

  /** After an entry that is still on its way past `time`, nothing more is decided by then. */
  lemma EntryParks(v: Venue, p: Params, cash: CashSource, e: EpisodeState, row: Row, time: int)
    requires v.realism.Valid() && p.Valid() && Orderly(v, p, cash, 0, e) && !e.run.entered && row.asks != []
    requires p.entry.Immediate? && RetriesWait(v, p, cash, 0) && e.run.nextEntry <= row.time <= time
    requires row.time + v.latency(e.impact.draws) > time
    ensures var (after, s) := ImmediateStep(v, p, e.run, e.impact, row, cash); Parked(p, EpisodeState(after, s, Going), time)
  {
    hide ImmediateStep, EntrySent, CashPending, Ample;
    EntryShape(v, p, e.run, e.impact, row, cash);
    if Ample(p, cash, v.tape.start) { NeverCashPending(v, p, e.run, e.impact, row, cash); }
  }

  /** After an entry that is still on its way past `time`, nothing more arrives by then. */
  lemma EntryLate(v: Venue, p: Params, cash: CashSource, e: EpisodeState, row: Row, time: int)
    requires v.realism.Valid() && p.Valid() && Orderly(v, p, cash, 0, e) && !e.run.entered && row.asks != []
    requires p.entry.Immediate? && InTurn(v, p, cash, 0) && e.run.nextEntry <= row.time
    requires row.time + v.latency(e.impact.draws) > time
    ensures var (after, s) := ImmediateStep(v, p, e.run, e.impact, row, cash);
      Late(v.latency, p, EpisodeState(after, s, Going), row.time, time)
  {
    hide ImmediateStep, EntrySent, CashPending, Ample;
    EntryShape(v, p, e.run, e.impact, row, cash);
    if Ample(p, cash, v.tape.start) { NeverCashPending(v, p, e.run, e.impact, row, cash); }
  }

  lemma EntryAgrees(v: Venue, w: Venue, m: nat, k: nat, time: int, p: Params, a: CashSource, b: CashSource,
                    e: EpisodeState, row: Row, decisions: bool)
    requires v.realism.Valid() && p.Valid() && VenuesAgree(v, w, m, k, time) && row.time <= time
    requires Foreseeable(v, p, a, b, time, decisions) && p.entry.Immediate? && !e.run.entered && row.asks != []
    requires Orderly(v, p, a, 0, e) && Orderly(w, p, b, 0, e) && e.run.nextEntry <= row.time
    ensures w.realism.Valid()
    ensures var (x, s') := ImmediateStep(v, p, e.run, e.impact, row, a);
      var (y, s'') := ImmediateStep(w, p, e.run, e.impact, row, b);
      Together(v, p, EpisodeState(x, s', Going), EpisodeState(y, s'', Going), |e.run.orders|, row.time, time, decisions)
  {
    hide ImmediateStep, VenuesAgree, CashPending, RunCash, SpendOf, SentBy, Orderly, InTurn, RetriesWait, Parked, Late,
      OrdersShare, DecisionsShare, EntrySent;
    AgreeFacts(v, w, m, k, time);
    SameInTurn(v, w, p, b);
    var arrival := row.time + v.latency(e.impact.draws);
    EntryShape(v, p, e.run, e.impact, row, a);
    EntryShape(w, p, e.run, e.impact, row, b);
    OrderlyStart(v, p, a, e);
    if arrival <= time {
      CashFrom(a, b, v.tape.start, row.time, time);
      SpendAgrees(p, a, b, e.run.debited, row.time);
      RunCashAgrees(p, a, b, e.run.debited, arrival);
      EntrySame(v, w, m, k, time, p, a, b, e.run, e.impact, row);
    } else {
      PartAtLast(e.run.orders, OrderFrom(Entry, row.token, EntrySent(v, p, e.run, e.impact, row, a).0),
        OrderFrom(Entry, row.token, EntrySent(w, p, e.run, e.impact, row, b).0), time);
      if decisions {
        EntryParks(v, p, a, e, row, time);
        EntryParks(w, p, b, e, row, time);
      } else {
        EntryLate(v, p, a, e, row, time);
        EntryLate(w, p, b, e, row, time);
      }
    }
  }

  lemma OrderlyStart(v: Venue, p: Params, cash: CashSource, e: EpisodeState)
    requires Orderly(v, p, cash, 0, e)
    ensures v.tape.start <= e.run.nextEntry
    ensures e.status.Going? ==> (e.run.entered <==> e.run.shares > 0)
    ensures !e.run.entered ==> e.run.debited == 0 && e.run.shares == 0
  {
  }

  /** Which entries arrive in turn depends on latencies, not on the tape. */
  lemma SameInTurn(v: Venue, w: Venue, p: Params, cash: CashSource)
    requires v.latency == w.latency && v.tape.start == w.tape.start
    ensures InTurn(v, p, cash, 0) == InTurn(w, p, cash, 0) && RetriesWait(v, p, cash, 0) == RetriesWait(w, p, cash, 0)
  {
  }

  lemma EntrySame(v: Venue, w: Venue, m: nat, k: nat, time: int, p: Params, a: CashSource, b: CashSource,
                  r: Run, s: Impact, row: Row)
    requires v.realism.Valid() && w.realism.Valid() && p.Valid() && VenuesAgree(v, w, m, k, time) && row.asks != []
    requires SpendOf(p, a, r.debited, row.time) == SpendOf(p, b, r.debited, row.time)
    requires row.time + v.latency(s.draws) <= time
    requires CashAgreesAt(RunCash(p, a, r.debited), RunCash(p, b, r.debited), row.time + v.latency(s.draws))
    ensures ImmediateStep(v, p, r, s, row, a) == ImmediateStep(w, p, r, s, row, b)
  {
    hide SentBy, VenuesAgree, RunCash, SpendOf, AfterEntry;
    var spend := SpendOf(p, a, r.debited, row.time).0;
    var o := Order(Buy, row.token, row.time, EntrySize(p, row.asks[0].price), spend, !p.allowPartial, Some(p.limit), None);
    SentAgrees(v, w, m, k, time, s, o, RunCash(p, a, r.debited), RunCash(p, b, r.debited));
  }

  lemma ParentEntryAgrees(v: Venue, w: Venue, m: nat, k: nat, time: int, p: Params, a: CashSource, b: CashSource,
                          e: EpisodeState, row: Row, decisions: bool) returns (j: nat)
    requires v.realism.Valid() && p.Valid() && VenuesAgree(v, w, m, k, time) && row.time <= time
    requires Foreseeable(v, p, a, b, time, decisions) && p.entry.Sequential? && v.tape.start <= e.run.nextEntry
    requires !e.run.entered && e.run.shares == 0
    requires row.asks != [] && row.asks[0].price > 0 && e.run.nextEntry <= row.time < DeadlineOf(v, p, row.time)
    ensures w.realism.Valid() && DeadlineOf(w, p, row.time) == DeadlineOf(v, p, row.time)
    ensures var x, y := SequentialStep(v, p, e.run, e.impact, row, a), SequentialStep(w, p, e.run, e.impact, row, b);
      && x.Some? == y.Some?
      && (x.Some? ==> Together(v, p, EpisodeState(x.value.0, x.value.1, Going), EpisodeState(y.value.0, y.value.1, Going), j,
                               row.time, time, decisions))
  {
    hide ParentAfter, VenuesAgree, RunCash, SpendOf, OffsetsOf, CashAgreesFrom, SharePast, DecisionsShare, OrdersShare,
      SequentialStep, ParentOf, InTurn, RetriesWait, Parked;
    AgreeFacts(v, w, m, k, time);
    CashFrom(a, b, v.tape.start, row.time, time);
    SpendAtRow(p, a, b, e.run.debited, row.time, time);
    RunCashFrom(p, a, b, e.run.debited, row.time, time);
    SameParent(v, w, p, a, b, e.run, row);
    EntrySteps(v, p, e.run, e.impact, row, a);
    EntrySteps(w, p, e.run, e.impact, row, b);
    var parent := ParentOf(v, p, e.run, row, a);
    j := 0;
    if parent.target > 0 {
      ParentEntryShape(v, p, e.run, e.impact, row, a);
      ParentEntryShape(w, p, e.run, e.impact, row, b);
      ParentSpend(v, p, e.run, row, a);
      SessionCashAgrees(v, p, a, b, e.run.debited, parent, row.time, time);
      var x, y := RunCash(p, a, e.run.debited), RunCash(p, b, e.run.debited);
      var n := ParentForesight(v, w, m, k, time, parent, x, y, e.impact);
      if parent.deadline > time {
        OrdersFromShare(e.run.orders, row.token, ParentAfter(v, parent, x, e.impact, OffsetsOf(v, parent)).outcomes,
          ParentAfter(w, parent, y, e.impact, OffsetsOf(w, parent)).outcomes, n, time);
        j := |e.run.orders| + n;
        EntryDeadlineParks(v, p, e.run, e.impact, row, a, time);
        EntryDeadlineParks(w, p, e.run, e.impact, row, b, time);
      } else {
        EntrySequentialSame(v, w, p, e.run, e.impact, row, a, b);
      }
    }
  }

  lemma EntryDeadlineParks(v: Venue, p: Params, r: Run, s: Impact, row: Row, cash: CashSource, time: int)
    requires v.realism.Valid() && p.Valid() && p.entry.Sequential? && row.asks != [] && row.asks[0].price > 0
    requires row.time < DeadlineOf(v, p, row.time) && !r.entered && r.shares == 0
    requires SequentialStep(v, p, r, s, row, cash).Some? && DeadlineOf(v, p, row.time) > time
    ensures var (after, s') := SequentialStep(v, p, r, s, row, cash).value; Parked(p, EpisodeState(after, s', Going), time)
  {
    hide SequentialStep, ParentAfter, OffsetsOf, RunCash;
    ParentEntryShape(v, p, r, s, row, cash);
  }

  lemma SameParent(v: Venue, w: Venue, p: Params, a: CashSource, b: CashSource, r: Run, row: Row)
    requires v.realism.Valid() && w.realism == v.realism && v.tape.start == w.tape.start && v.tape.end == w.tape.end
    requires row.asks != [] && p.entry.Sequential? && (p.orderShares.Some? || p.orderNotional.Some?)
    requires SpendOf(p, a, r.debited, row.time) == SpendOf(p, b, r.debited, row.time)
    ensures ParentOf(v, p, r, row, a) == ParentOf(w, p, r, row, b)
    ensures DeadlineOf(w, p, row.time) == DeadlineOf(v, p, row.time)
  {
    hide SpendOf, MaxAffordable;
  }

  lemma EntrySteps(v: Venue, p: Params, r: Run, s: Impact, row: Row, cash: CashSource)
    requires v.realism.Valid() && p.Valid() && p.entry.Sequential? && row.asks != [] && row.asks[0].price > 0
    requires row.time < DeadlineOf(v, p, row.time)
    ensures SequentialStep(v, p, r, s, row, cash).Some? <==> ParentOf(v, p, r, row, cash).target > 0
  {
    hide ParentOf, ParentAfter, AfterEntry;
  }

  lemma ParentSpend(v: Venue, p: Params, r: Run, row: Row, cash: CashSource)
    requires v.realism.Valid() && p.Valid() && p.entry.Sequential? && row.asks != []
    ensures ParentOf(v, p, r, row, cash).maxSpend.None? <==> p.orderNotional.None?
  {
    hide SpendOf, MaxAffordable;
    SpendShape(p, cash, r.debited, row.time);
  }

  lemma EntrySequentialSame(v: Venue, w: Venue, p: Params, r: Run, s: Impact, row: Row, a: CashSource, b: CashSource)
    requires v.realism.Valid() && w.realism.Valid() && p.Valid() && p.entry.Sequential?
    requires row.asks != [] && row.asks[0].price > 0
    requires row.time < DeadlineOf(v, p, row.time) && row.time < DeadlineOf(w, p, row.time)
    requires SpendOf(p, a, r.debited, row.time) == SpendOf(p, b, r.debited, row.time)
    requires ParentOf(v, p, r, row, a) == ParentOf(w, p, r, row, b) && ParentOf(v, p, r, row, a).target > 0
    requires var parent := ParentOf(v, p, r, row, a);
      PlanOf(parent).Valid() && parent.policy.Valid() &&
      ParentAfter(v, parent, RunCash(p, a, r.debited), s, OffsetsOf(v, parent))
        == ParentAfter(w, parent, RunCash(p, b, r.debited), s, OffsetsOf(w, parent))
    ensures SequentialStep(v, p, r, s, row, a) == SequentialStep(w, p, r, s, row, b)
  {
    hide ParentOf, ParentAfter, AfterEntry, RunCash, SpendOf, OffsetsOf;
  }

  lemma SpendShape(p: Params, a: CashSource, debited: int, at: int)
    ensures SpendOf(p, a, debited, at).0.None? <==> p.orderNotional.None?
  {
    hide RunCash;
  }

  lemma SpendAtRow(p: Params, a: CashSource, b: CashSource, debited: int, at: int, time: int)
    requires CashAgreesFrom(a, b, at, time) && at <= time
    ensures SpendOf(p, a, debited, at) == SpendOf(p, b, debited, at)
  {
    assert CashAgreesAt(a, b, at);
    SpendAgrees(p, a, b, debited, at);
  }

  lemma SessionCashAgrees(v: Venue, p: Params, a: CashSource, b: CashSource, debited: int, parent: Parent, at: int, time: int)
    requires p.Valid() && DeadlinesAgree(v, p, a, b, time) && p.entry.Sequential? && v.tape.start <= at <= time
    requires parent.deadline == DeadlineOf(v, p, at) && (parent.maxSpend.None? <==> p.orderNotional.None?)
    ensures SessionCash(parent, RunCash(p, a, debited)) == SessionCash(parent, RunCash(p, b, debited))
  {
    hide RunCash;
    if parent.maxSpend.None? { RunCashAgrees(p, a, b, debited, parent.deadline); }
  }

  lemma OrdersFromShare(orders: seq<SimulatedOrder>, token: Token, x: seq<Outcome>, y: seq<Outcome>, n: nat, time: int)
    requires SharePast(x, y, n, time)
    ensures DecisionsShare(orders + OrdersFrom(token, x), orders + OrdersFrom(token, y), |orders| + n, time)
    ensures OrdersShare(orders + OrdersFrom(token, x), orders + OrdersFrom(token, y), |orders| + n, time)
  {
    var xs, ys := orders + OrdersFrom(token, x), orders + OrdersFrom(token, y);
    forall i | 0 <= i < |orders| + n ensures xs[i] == ys[i] {
      if |orders| <= i { assert x[..n][i - |orders|] == y[..n][i - |orders|]; }
    }
  }

  lemma RowAgrees(v: Venue, w: Venue, m: nat, k: nat, time: int, p: Params, a: CashSource, b: CashSource,
                  e: EpisodeState, row: Row, decisions: bool) returns (j: nat)
    requires v.realism.Valid() && p.Valid() && VenuesAgree(v, w, m, k, time) && row.time <= time
    requires Foreseeable(v, p, a, b, time, decisions) && Orderly(v, p, a, 0, e) && Orderly(w, p, b, 0, e)
    ensures w.realism.Valid()
    ensures Together(v, p, RowStep(v, p, a, e, row), RowStep(w, p, b, e, row), j, row.time, time, decisions)
  {
    hide ExitStep, ImmediateStep, SequentialStep, VenuesAgree, Foreseeable, OrdersShare, DecisionsShare, Parked, Late, Orderly;
    AgreeFacts(v, w, m, k, time);
    OrderlyStart(v, p, a, e);
    var r := e.run;
    j := |r.orders|;
    if e.status.Going? && row.time <= v.tape.end {
      if r.shares > 0 && row.token == r.token && row.time >= r.effective {
        var bid: Option<int> := if row.bids == [] then None else Some(row.bids[0].price);
        ExitAgrees(v, w, m, k, time, p, r, e.impact, bid, row.token, row.time, decisions);
      } else if r.shares <= 0 && Triggers(p, r, row) && row.time <= v.tape.start + p.entryTo {
        if p.entry.Immediate? {
          EntryAgrees(v, w, m, k, time, p, a, b, e, row, decisions);
        } else if row.time < DeadlineOf(v, p, row.time) {
          j := ParentEntryAgrees(v, w, m, k, time, p, a, b, e, row, decisions);
        }
      }
    }
  }

  lemma RowParked(v: Venue, p: Params, cash: CashSource, e: EpisodeState, row: Row, time: int)
    requires v.realism.Valid() && p.Valid() && Parked(p, e, time) && row.time <= time
    ensures RowStep(v, p, cash, e, row).run == e.run && Parked(p, RowStep(v, p, cash, e, row), time)
  {
    hide ExitStep, ImmediateStep, SequentialStep;
  }

  lemma RowLate(v: Venue, p: Params, cash: CashSource, e: EpisodeState, row: Row, was: int, time: int)
    requires v.realism.Valid() && p.Valid() && Orderly(v, p, cash, 0, e) && Late(v.latency, p, e, was, time)
    requires p.entry.Immediate? ==> InTurn(v, p, cash, 0)
    requires was <= row.time <= time
    ensures Late(v.latency, p, RowStep(v, p, cash, e, row), row.time, time)
    ensures var x, y := e.run.orders, RowStep(v, p, cash, e, row).run.orders;
      x <= y && forall i :: |x| <= i < |y| ==> y[i].arrival > time
  {
    hide ExitStep, ImmediateStep, SequentialStep, InTurn, Orderly, EntrySent, CashPending, Parked;
    OrderlyStart(v, p, cash, e);
    if Parked(p, e, time) {
      RowParked(v, p, cash, e, row, time);
    } else {
      NotParked(p, e, time);
      if row.time <= v.tape.end && Triggers(p, e.run, row) && row.time <= v.tape.start + p.entryTo {
        EntryShape(v, p, e.run, e.impact, row, cash);
        EntryLate(v, p, cash, e, row, time);
      }
    }
  }

  lemma NotParked(p: Params, e: EpisodeState, time: int)
    requires !Parked(p, e, time)
    ensures e.status.Going?
  {
  }

  lemma {:induction false} EpisodeOrderly(v: Venue, p: Params, cash: CashSource, rows: seq<Row>)
    requires v.realism.Valid() && p.Valid()
    ensures Orderly(v, p, cash, 0, EpisodeAfter(v, p, cash, NO_IMPACT, rows))
  {
    hide RowStep, Orderly;
    if rows == [] {
      StartOrderly(v, p, cash, NO_IMPACT);
    } else {
      EpisodeOrderly(v, p, cash, rows[..|rows| - 1]);
      RowOrderly(v, p, cash, 0, EpisodeAfter(v, p, cash, NO_IMPACT, rows[..|rows| - 1]), rows[|rows| - 1]);
    }
  }

  function LastTime(rows: seq<Row>): int { if rows == [] then 0 else rows[|rows| - 1].time }

  /** The runs through the rows they share. */
  lemma {:induction false} PastAgrees(v: Venue, w: Venue, m: nat, k: nat, time: int, p: Params, a: CashSource, b: CashSource,
                                      rows: seq<Row>, decisions: bool) returns (j: nat)
    requires v.realism.Valid() && p.Valid() && VenuesAgree(v, w, m, k, time) && Foreseeable(v, p, a, b, time, decisions)
    requires (forall r <- rows :: r.time <= time) && (decisions || InTimeOrder(rows))
    ensures w.realism.Valid()
    ensures Together(v, p, EpisodeAfter(v, p, a, NO_IMPACT, rows), EpisodeAfter(w, p, b, NO_IMPACT, rows), j, LastTime(rows), time,
                     decisions)
  {
    hide RowStep, VenuesAgree, Foreseeable, Orderly, Parked, Late, OrdersShare, DecisionsShare;
    AgreeFacts(v, w, m, k, time);
    j := 0;
    if rows != [] {
      var init, row := rows[..|rows| - 1], rows[|rows| - 1];
      assert row in rows && forall r <- init :: r in rows;
      j := PastAgrees(v, w, m, k, time, p, a, b, init, decisions);
      EpisodeOrderly(v, p, a, init);
      EpisodeOrderly(w, p, b, init);
      var x, y := EpisodeAfter(v, p, a, NO_IMPACT, init), EpisodeAfter(w, p, b, NO_IMPACT, init);
      if x == y {
        j := RowAgrees(v, w, m, k, time, p, a, b, x, row, decisions);
      } else if decisions {
        RowParked(v, p, a, x, row, time);
        RowParked(w, p, b, y, row, time);
      } else {
        BothLate(v, w, p, a, b, x, y, row, LastTime(init), time, j);
      }
    }
  }

  lemma BothLate(v: Venue, w: Venue, p: Params, a: CashSource, b: CashSource, x: EpisodeState, y: EpisodeState, row: Row,
                 was: int, time: int, j: nat)
    requires v.realism.Valid() && w.realism.Valid() && p.Valid() && v.latency == w.latency && v.tape.start == w.tape.start
    requires Foreseeable(v, p, a, b, time, false) && Orderly(v, p, a, 0, x) && Orderly(w, p, b, 0, y) && was <= row.time <= time
    requires Late(v.latency, p, x, was, time) && Late(v.latency, p, y, was, time) && OrdersShare(x.run.orders, y.run.orders, j, time)
    ensures var x', y' := RowStep(v, p, a, x, row), RowStep(w, p, b, y, row);
      Late(v.latency, p, x', row.time, time) && Late(v.latency, p, y', row.time, time) && OrdersShare(x'.run.orders, y'.run.orders, j, time)
  {
    hide RowStep, Orderly, Parked, InTurn, OrdersShare;
    SameInTurn(v, w, p, b);
    RowLate(v, p, a, x, row, was, time);
    RowLate(w, p, b, y, row, was, time);
    ExtendOrders(x.run.orders, y.run.orders, RowStep(v, p, a, x, row).run.orders, RowStep(w, p, b, y, row).run.orders, j, time);
  }

  /** A row only adds orders that are decided and arrive at or after its time. */
  lemma RowAdds(v: Venue, p: Params, cash: CashSource, e: EpisodeState, row: Row, time: int)
    requires v.realism.Valid() && p.Valid() && row.time > time && Orderly(v, p, cash, 0, e)
    ensures var x, y := e.run.orders, RowStep(v, p, cash, e, row).run.orders;
      x <= y && forall i :: |x| <= i < |y| ==> y[i].arrival > time && y[i].decision > time
  {
    hide ExitStep, ImmediateStep, SequentialStep, CashPending, ParentAfter, OffsetsOf, Orderly;
    OrderlyStart(v, p, cash, e);
    var r := e.run;
    if e.status.Going? && row.time <= v.tape.end {
      if r.shares > 0 && row.token == r.token && row.time >= r.effective {
        ExitShape(v, p, r, e.impact, if row.bids == [] then None else Some(row.bids[0].price), row.token, row.time);
      } else if r.shares <= 0 && Triggers(p, r, row) && row.time <= v.tape.start + p.entryTo {
        if p.entry.Immediate? {
          EntryShape(v, p, r, e.impact, row, cash);
        } else if row.time < DeadlineOf(v, p, row.time) && SequentialStep(v, p, r, e.impact, row, cash).Some? {
          ParentEntryShape(v, p, r, e.impact, row, cash);
          ParentAdds(v, p, r, e.impact, row, cash, time);
        }
      }
    }
  }

  lemma ParentAdds(v: Venue, p: Params, r: Run, s: Impact, row: Row, cash: CashSource, time: int)
    requires v.realism.Valid() && p.Valid() && p.entry.Sequential? && row.asks != [] && row.asks[0].price > 0
    requires row.time < DeadlineOf(v, p, row.time) && !r.entered && SequentialStep(v, p, r, s, row, cash).Some?
    requires row.time > time
    ensures var parent := ParentOf(v, p, r, row, cash);
      && PlanOf(parent).Valid() && parent.policy.Valid() && parent.decision < parent.deadline
      && forall o <- ParentAfter(v, parent, RunCash(p, cash, r.debited), s, OffsetsOf(v, parent)).outcomes :: o.arrival > time && o.decision > time
  {
    hide ParentAfter, SequentialStep, OffsetsOf;
    ParentEntryShape(v, p, r, s, row, cash);
    var parent := ParentOf(v, p, r, row, cash);
    var offsets := OffsetsOf(v, parent);
    ParentShape(v, parent, RunCash(p, cash, r.debited), s, offsets);
    forall o | o in ParentAfter(v, parent, RunCash(p, cash, r.debited), s, offsets).outcomes ensures o.arrival > time && o.decision > time {
      assert ChildShape(v, parent, s.draws, offsets, o);
    }
  }

  lemma {:induction false} FutureRows(v: Venue, p: Params, cash: CashSource, rows: seq<Row>, n: nat, time: int)
    requires v.realism.Valid() && p.Valid() && n <= |rows| && forall i :: n <= i < |rows| ==> rows[i].time > time
    ensures var x, y := EpisodeAfter(v, p, cash, NO_IMPACT, rows[..n]).run.orders, EpisodeAfter(v, p, cash, NO_IMPACT, rows).run.orders;
      x <= y && forall i :: |x| <= i < |y| ==> y[i].arrival > time && y[i].decision > time
    decreases |rows|
  {
    hide RowStep, Orderly;
    if n == |rows| {
      assert rows[..n] == rows;
    } else {
      var init, row := rows[..|rows| - 1], rows[|rows| - 1];
      assert init[..n] == rows[..n];
      FutureRows(v, p, cash, init, n, time);
      EpisodeOrderly(v, p, cash, init);
      RowAdds(v, p, cash, EpisodeAfter(v, p, cash, NO_IMPACT, init), row, time);
    }
  }

  /** The shared rows decide what is shared, and later rows add only what comes later. */
  lemma WholeRuns(v: Venue, w: Venue, m: nat, k: nat, time: int, p: Params, a: CashSource, b: CashSource, decisions: bool)
    returns (j: nat)
    requires v.realism.Valid() && p.Valid() && VenuesAgree(v, w, m, k, time) && Foreseeable(v, p, a, b, time, decisions)
    requires decisions || InTimeOrder(v.tape.rows)
    ensures w.realism.Valid()
    ensures var x, y := EpisodeAfter(v, p, a, NO_IMPACT, v.tape.rows).run.orders, EpisodeAfter(w, p, b, NO_IMPACT, w.tape.rows).run.orders;
      OrdersShare(x, y, j, time) && (decisions ==> DecisionsShare(x, y, j, time))
  {
    hide EpisodeAfter, Foreseeable, TradesAgree, SpansAgree, Parked, Late, OrdersShare;
    AgreeFacts(v, w, m, k, time);
    var rows := v.tape.rows[..m];
    assert rows == w.tape.rows[..m];
    j := PastAgrees(v, w, m, k, time, p, a, b, rows, decisions);
    var x, y := EpisodeAfter(v, p, a, NO_IMPACT, rows).run.orders, EpisodeAfter(w, p, b, NO_IMPACT, rows).run.orders;
    if EpisodeAfter(v, p, a, NO_IMPACT, rows) == EpisodeAfter(w, p, b, NO_IMPACT, rows) {
      j := |x|;
      SameOrdersShare(x, time);
    }
    FutureRows(v, p, a, v.tape.rows, m, time);
    FutureRows(w, p, b, w.tape.rows, m, time);
    var x', y' := EpisodeAfter(v, p, a, NO_IMPACT, v.tape.rows).run.orders, EpisodeAfter(w, p, b, NO_IMPACT, w.tape.rows).run.orders;
    if decisions { ExtendDecisions(x, y, x', y', j, time); } else { ExtendOrders(x, y, x', y', j, time); }
  }

  lemma SameOrdersShare(x: seq<SimulatedOrder>, time: int)
    ensures OrdersShare(x, x, |x|, time) && DecisionsShare(x, x, |x|, time)
  {
  }

  /** No foreknowledge in the tape simulator. Two episodes whose tapes and wallets agree up to `time` get the
      same outcomes up to some order, and everything either sends beyond it arrives after `time`. Immediate
      entries must arrive in turn; for share-sized parents the wallets must also agree at their deadlines. */
  lemma NoForeknowledge(v: Venue, w: Venue, m: nat, k: nat, time: int, p: Params, a: CashSource, b: CashSource)
    returns (j: nat)
    requires v.realism.Valid() && p.Valid() && VenuesAgree(v, w, m, k, time) && Foreseeable(v, p, a, b, time, false)
    requires InTimeOrder(v.tape.rows)
    ensures w.realism.Valid()
    ensures OrdersShare(EpisodeAfter(v, p, a, NO_IMPACT, v.tape.rows).run.orders,
                        EpisodeAfter(w, p, b, NO_IMPACT, w.tape.rows).run.orders, j, time)
  {
    j := WholeRuns(v, w, m, k, time, p, a, b, false);
  }

  /** Decisions read only the past. Where no immediate entry is retried before it arrives, the two episodes also
      decide the same orders by `time`, children of parents included, and all others after it. */
  lemma DecisionsReadThePast(v: Venue, w: Venue, m: nat, k: nat, time: int, p: Params, a: CashSource, b: CashSource)
    returns (j: nat)
    requires v.realism.Valid() && p.Valid() && VenuesAgree(v, w, m, k, time) && Foreseeable(v, p, a, b, time, true)
    ensures w.realism.Valid()
    ensures DecisionsShare(EpisodeAfter(v, p, a, NO_IMPACT, v.tape.rows).run.orders,
                           EpisodeAfter(w, p, b, NO_IMPACT, w.tape.rows).run.orders, j, time)
  {
    j := WholeRuns(v, w, m, k, time, p, a, b, true);
  }

  lemma ExtendOrders(x: seq<SimulatedOrder>, y: seq<SimulatedOrder>, x': seq<SimulatedOrder>, y': seq<SimulatedOrder>,
                     j: nat, time: int)
    requires OrdersShare(x, y, j, time) && x <= x' && y <= y'
    requires (forall i :: |x| <= i < |x'| ==> x'[i].arrival > time) && (forall i :: |y| <= i < |y'| ==> y'[i].arrival > time)
    ensures OrdersShare(x', y', j, time)
  {
    assert x'[..j] == x[..j] && y'[..j] == y[..j];
    forall i | j <= i < |x'| ensures x'[i].arrival > time { if i < |x| { assert x'[i] == x[i]; } }
    forall i | j <= i < |y'| ensures y'[i].arrival > time { if i < |y| { assert y'[i] == y[i]; } }
  }

  lemma ExtendDecisions(x: seq<SimulatedOrder>, y: seq<SimulatedOrder>, x': seq<SimulatedOrder>, y': seq<SimulatedOrder>,
                        j: nat, time: int)
    requires DecisionsShare(x, y, j, time) && x <= x' && y <= y'
    requires forall i :: |x| <= i < |x'| ==> x'[i].arrival > time && x'[i].decision > time
    requires forall i :: |y| <= i < |y'| ==> y'[i].arrival > time && y'[i].decision > time
    ensures DecisionsShare(x', y', j, time) && OrdersShare(x', y', j, time)
  {
    ExtendOrders(x, y, x', y', j, time);
    assert forall i :: 0 <= i < |x| ==> x'[i] == x[i];
    assert forall i :: 0 <= i < |y| ==> y'[i] == y[i];
  }
}
