/** How fast orders follow one another: when the next order can no longer overtake the one before it. */
module Pacing {
  import opened FixedPoint
  import opened Fees
  import opened Market
  import opened Ladders
  import opened TakerWalk
  import opened Affordability
  import opened Reconstruction
  import opened Tapes
  import opened SelfImpact
  import opened Sending
  import opened Policies
  import opened Sessions
  import opened ParentDriver
  import opened Episodes
  import opened EpisodeShape

  // ---- latencies against cooldowns ----------------------------------------------------------

  /** There is no wallet, or it always holds what one entry may ask for. */
  ghost predicate Ample(p: Params, cash: CashSource, start: int)
  {
    cash.Some? ==> forall t :: start <= t ==>
      cash.value.requires(t) && cash.value(t) >= if p.orderNotional.Some? then p.orderNotional.value else 1
  }

  /** Orders arrive at once. The first order of a run draws latency `base`. */
  ghost predicate AtOnce(latency: nat -> nat, base: nat) { forall n: nat :: base <= n ==> latency(n) == 0 }

  /** No order is faster than the one before it. */
  ghost predicate Steady(latency: nat -> nat, base: nat)
  {
    forall n: nat, m: nat :: base <= n && m == n + 1 ==> latency(n) <= latency(m)
  }

  /** No entry is faster than the one before it by more than the cooldown between them. */
  ghost predicate Paced(latency: nat -> nat, base: nat, cooldown: nat, maxEntries: int)
  {
    forall n: nat, m: nat :: base <= n && m == n + 1 && m < base + maxEntries ==> latency(n) <= latency(m) + cooldown
  }

  /** The cooldown after every entry that can be followed by another covers its latency. */
  ghost predicate Cooled(latency: nat -> nat, base: nat, cooldown: nat, maxEntries: int)
  {
    forall n: nat :: base <= n && n + 1 < base + maxEntries ==> latency(n) <= cooldown
  }

  /** No immediate entry arrives before the one before it: latencies are steady, or each retry waits out a
      cooldown that makes up for them. While cash is what stops an entry, there is no cooldown. */
  ghost predicate InTurn(v: Venue, p: Params, cash: CashSource, base: nat)
  {
    || p.maxEntries <= 0 || Steady(v.latency, base)
    || (Ample(p, cash, v.tape.start) && Paced(v.latency, base, p.cooldown, p.maxEntries))
  }

  /** No immediate entry is decided before the one before it has arrived. */
  ghost predicate RetriesWait(v: Venue, p: Params, cash: CashSource, base: nat)
  {
    || p.maxEntries <= 0 || AtOnce(v.latency, base)
    || (Ample(p, cash, v.tape.start) && Cooled(v.latency, base, p.cooldown, p.maxEntries))
  }

  ghost predicate InTimeOrder(rows: seq<Row>)
  {
    forall i, j :: 0 <= i <= j < |rows| ==> rows[i].time <= rows[j].time
  }

  // ---- entries that never wait for cash -----------------------------------------------------

  /** What an ample wallet, or none, offers a run that has bought nothing. */
  lemma AmpleAt(p: Params, cash: CashSource, debited: int, start: int, time: int)
    requires p.Valid() && Ample(p, cash, start) && start <= time && debited == 0
    ensures CashAt(RunCash(p, cash, debited), time).Some?
    ensures CashAt(RunCash(p, cash, debited), time).value >= if p.orderNotional.Some? then p.orderNotional.value else 1
    ensures SpendOf(p, cash, debited, time) == (p.orderNotional, false)
  {
    var source := RunCash(p, cash, debited);
    assert source.value.requires(time);
    var fallback := if p.orderNotional.Some? then p.orderNotional.value else 0x7FFF_FFFF_FFFF_FFFF;
    assert source.value(time) == Max(0, (if cash.Some? then Max(0, cash.value(time)) else fallback) - debited);
  }

  /** With an ample wallet, or none, before anything was bought, no order is refused for cash. */
  lemma NeverCashPending(v: Venue, p: Params, r: Run, s: Impact, row: Row, cash: CashSource)
    requires v.realism.Valid() && p.Valid() && row.asks != [] && r.debited == 0
    requires Ample(p, cash, v.tape.start) && v.tape.start <= row.time
    ensures !CashPending(p, r, row, cash, EntrySent(v, p, r, s, row, cash).0)
  {
    hide Matched, Untrusted, RequestOf, RunCash, SpendOf, Ample;
    var arrival := row.time + v.latency(s.draws);
    AmpleAt(p, cash, r.debited, v.tape.start, row.time);
    AmpleAt(p, cash, r.debited, v.tape.start, arrival);
    var o := Order(Buy, row.token, row.time, EntrySize(p, row.asks[0].price), p.orderNotional, !p.allowPartial, Some(p.limit), None);
    var available := CashAt(RunCash(p, cash, r.debited), arrival);
    if EarlyRefusal(v.tape, o, arrival, available).None? {
      MatchedNotCashRefused(v, o, arrival, available, RowAt(v.tape.rows, o.token, arrival).value);
    }
  }

  lemma MatchedNotCashRefused(v: Venue, o: Order, arrival: int, cash: Option<int>, row: nat)
    requires v.realism.Valid() && row < |v.tape.rows|
    ensures forall ladder: Ladder ::
      Matched(v.realism, o, RequestOf(v.tape, v.realism, o, arrival, row, ladder), ladder, cash).rejected
        != Some(InsufficientAvailableCash)
  {
    hide RequestOf, Walk, Trim, TallyOf;
    forall ladder: Ladder
      ensures Matched(v.realism, o, RequestOf(v.tape, v.realism, o, arrival, row, ladder), ladder, cash).rejected
        != Some(InsufficientAvailableCash)
    {
      WalkClosedForm(v.realism, RequestOf(v.tape, v.realism, o, arrival, row, ladder), ladder);
    }
  }

  // ---- what a run keeps about its next order ------------------------------------------------

  /** A run that has not entered has spent nothing and holds nothing, and decides nothing before the start;
      where cash never stops it, it has sent one order for each entry it counts. */
  ghost predicate Orderly(v: Venue, p: Params, cash: CashSource, base: nat, e: EpisodeState)
  {
    && v.tape.start <= e.run.nextEntry && base <= e.impact.draws && 0 <= e.run.entries
    && (e.status.Going? ==> (e.run.entered <==> e.run.shares > 0))
    && (!e.run.entered ==> e.run.debited == 0 && e.run.shares == 0)
    && (p.entry.Immediate? && Ample(p, cash, v.tape.start) && !e.run.entered ==> e.impact.draws == base + e.run.entries)
  }

  lemma StartOrderly(v: Venue, p: Params, cash: CashSource, start: Impact)
    ensures Orderly(v, p, cash, start.draws, EpisodeState(StartOf(p, v.tape), start, Going))
  {
  }

  lemma EntryOrderly(v: Venue, p: Params, cash: CashSource, base: nat, e: EpisodeState, row: Row)
    requires v.realism.Valid() && p.Valid() && Orderly(v, p, cash, base, e) && !e.run.entered && row.asks != []
    requires p.entry.Immediate? && e.run.nextEntry <= row.time
    ensures var (after, s) := ImmediateStep(v, p, e.run, e.impact, row, cash);
      Orderly(v, p, cash, base, EpisodeState(after, s, Going))
  {
    hide ImmediateStep, EntrySent, CashPending, Ample;
    EntryShape(v, p, e.run, e.impact, row, cash);
    if Ample(p, cash, v.tape.start) { NeverCashPending(v, p, e.run, e.impact, row, cash); }
  }

  lemma ParentOrderly(v: Venue, p: Params, cash: CashSource, base: nat, e: EpisodeState, row: Row)
    requires v.realism.Valid() && p.Valid() && Orderly(v, p, cash, base, e) && !e.run.entered
    requires p.entry.Sequential? && row.asks != [] && row.asks[0].price > 0 && e.run.nextEntry <= row.time < DeadlineOf(v, p, row.time)
    requires SequentialStep(v, p, e.run, e.impact, row, cash).Some?
    ensures var (after, s) := SequentialStep(v, p, e.run, e.impact, row, cash).value;
      Orderly(v, p, cash, base, EpisodeState(after, s, Going))
  {
    hide SequentialStep, ParentAfter, OffsetsOf, Ample;
    ParentEntryShape(v, p, e.run, e.impact, row, cash);
    var parent := ParentOf(v, p, e.run, row, cash);
    ParentShape(v, parent, RunCash(p, cash, e.run.debited), e.impact, OffsetsOf(v, parent));
  }

  lemma RowOrderly(v: Venue, p: Params, cash: CashSource, base: nat, e: EpisodeState, row: Row)
    requires v.realism.Valid() && p.Valid() && Orderly(v, p, cash, base, e)
    ensures Orderly(v, p, cash, base, RowStep(v, p, cash, e, row))
  {
    hide ExitStep, ImmediateStep, SequentialStep, Ample;
    var r := e.run;
    if e.status.Going? && row.time <= v.tape.end {
      if r.shares > 0 && row.token == r.token && row.time >= r.effective {
        var bid: Option<int> := if row.bids == [] then None else Some(row.bids[0].price);
        ExitShape(v, p, r, e.impact, bid, row.token, row.time);
        ExitDraws(v, p, r, e.impact, bid, row.token, row.time);
      } else if r.shares <= 0 && Triggers(p, r, row) && row.time <= v.tape.start + p.entryTo {
        if p.entry.Immediate? {
          EntryOrderly(v, p, cash, base, e, row);
        } else if row.time < DeadlineOf(v, p, row.time) && SequentialStep(v, p, r, e.impact, row, cash).Some? {
          ParentOrderly(v, p, cash, base, e, row);
        }
      }
    }
  }

  lemma ExitDraws(v: Venue, p: Params, r: Run, s: Impact, bid: Option<int>, token: Token, time: int)
    requires v.realism.Valid()
    ensures ExitStep(v, p, r, s, bid, token, time).1.draws >= s.draws
  {
    hide Sent;
  }
}
