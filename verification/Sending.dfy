/** Sending one marketable order in the tape simulator. */
module Sending {
  import opened FixedPoint
  import opened Fees
  import opened Market
  import opened Ladders
  import opened TakerWalk
  import opened Affordability
  import opened Reconstruction
  import opened Tapes
  import opened SelfImpact

  datatype Trade = Trade(time: int, token: Token, size: nat)

  /** One episode's tape as the simulator reads it. */
  datatype EpisodeTape = EpisodeTape(
    rows: seq<Row>, spans: seq<Interval>, trades: seq<Trade>,
    start: int, end: int, minimum: nat, tick: int)

  function TakerLadder(row: Row, side: Side): Ladder { if side.Buy? then row.asks else row.bids }

  /** Stamps are sorted, trades are sorted, and every ladder is a positive best-first ladder. */
  ghost predicate WellFormed(tape: EpisodeTape)
  {
    && (forall i, j :: 0 <= i <= j < |tape.rows| ==> tape.rows[i].time <= tape.rows[j].time)
    && (forall i, j :: 0 <= i <= j < |tape.trades| ==> tape.trades[i].time <= tape.trades[j].time)
    && (forall r <- tape.rows ::
          BestFirst(Buy, r.asks) && Positive(r.asks) && BestFirst(Sell, r.bids) && Positive(r.bids))
  }

  datatype Order = Order(
    side: Side, token: Token, decision: int, shares: int, maxSpend: Option<int>,
    requireFull: bool, limit: Option<int>, deadline: Option<int>)

  /** Cash the order may rely on at an instant; a query outside its domain is an error. */
  type CashSource = Option<int --> int>

  ghost function CashAt(cash: CashSource, time: int): Option<int>
  {
    if cash.Some? && cash.value.requires(time) then Some(Max(0, cash.value(time))) else None
  }

  datatype Reply = Reply(outcome: Outcome, record: Record, cursor: map<Token, nat>)

  /** Checks made before the book at arrival is consulted. */
  function EarlyRefusal(tape: EpisodeTape, o: Order, arrival: int, cash: Option<int>): Option<Reason>
  {
    if o.deadline.Some? && arrival > o.deadline.value then Some(ParentDeadlineElapsed)
    else if arrival >= tape.end then Some(MarketClosedAtArrival)
    else if o.side.Buy? && cash.Some? && cash.value <= 0 then Some(InsufficientAvailableCash)
    else if o.side.Buy? && o.maxSpend.Some? && cash.Some? && cash.value < o.maxSpend.value
      then Some(InsufficientAvailableCash)
    else if RowAt(tape.rows, o.token, arrival).None? then Some(NoBookAtArrival)
    else None
  }

  predicate Untrusted(tape: EpisodeTape, r: Realism, o: Order, arrival: int, row: nat)
    requires row < |tape.rows|
  {
    r.requireValid && (!tape.rows[row].valid || IsUncertain(tape.spans, o.token, arrival))
  }

  function SpendCap(o: Order, cash: Option<int>): Option<int>
  {
    if o.side.Buy? && o.maxSpend.None? then cash else o.maxSpend
  }

  function NotionalSized(o: Order): bool { o.side.Buy? && o.maxSpend.Some? }

  /** The size asked of the ladder: a dollar order is resized at the touch it meets. */
  function RequestOf(tape: EpisodeTape, r: Realism, o: Order, arrival: int, row: nat, ladder: Ladder): Request
    requires row < |tape.rows| && r.Valid()
  {
    var size :=
      if NotionalSized(o) && ladder != [] then MaxAffordable(r.fee, o.maxSpend.value, ladder[0].price, None)
      else o.shares;
    Request(o.side, size, o.limit, None, o.decision, arrival, arrival - tape.rows[row].time,
            tape.minimum, tape.tick)
  }

  /** The outcome against one net ladder: the walk, cut to the cash limit, and discarded when a partial
      fill is not allowed. */
  function Matched(r: Realism, o: Order, q: Request, ladder: Ladder, cash: Option<int>): Outcome
    requires r.Valid()
  {
    var walked := Walk(r, q, ladder);
    var capped := o.side.Buy? && SpendCap(o, cash).Some? && walked.filled > 0;
    var paid := if capped then CapOutcome(r.fee, walked, SpendCap(o, cash).value) else walked;
    var cashBound := capped && CashBound(walked.slices, Max(0, SpendCap(o, cash).value));
    var full := paid.filled == paid.requested || (NotionalSized(o) && cashBound);
    if o.requireFull && paid.filled > 0 && !full
    then Rejection(paid.requested, PartialEntryDisallowed, paid.decision, paid.arrival) else paid
  }

  /** What sending an order does: its outcome and the consumption record and cursor afterwards. `cash`
      is the non-negative cash available at arrival, if the order is bound by cash at all. */
  function Sent(tape: EpisodeTape, r: Realism, record: Record, cursor: map<Token, nat>,
                o: Order, arrival: int, cash: Option<int>): Reply
    requires r.Valid()
  {
    var early := EarlyRefusal(tape, o, arrival, cash);
    if early.Some? then Reply(Rejection(o.shares, early.value, o.decision, arrival), record, cursor)
    else
      var row := RowAt(tape.rows, o.token, arrival).value;
      if Untrusted(tape, r, o, arrival, row)
      then Reply(Rejection(o.shares, BookStateUncertain, o.decision, arrival), record, cursor)
      else
        var current := Reconciled(record, cursor, tape.rows, o.token, row);
        var ladder := Net(TakerLadder(tape.rows[row], o.side), TakenOn(current, o.token, Resting(o.side)));
        var outcome := Matched(r, o, RequestOf(tape, r, o, arrival, row, ladder), ladder, cash);
        Reply(outcome, Noted(current, o.token, Resting(o.side), outcome.slices),
              Advanced(cursor, o.token, row))
  }

  /** Where orders are sent: the tape, the execution model, and the latency of the n-th order sent, in
      nanoseconds, including the venue's taker delay. */
  datatype Venue = Venue(tape: EpisodeTape, realism: Realism, latency: nat -> nat)

  /** What the orders of a run have done to the venue so far. */
  datatype Impact = Impact(record: Record, cursor: map<Token, nat>, draws: nat)

  const NO_IMPACT: Impact := Impact(map[], map[], 0)

  /** Sending one order: it draws the next latency and meets the book at its arrival. */
  ghost function SentBy(v: Venue, s: Impact, o: Order, cash: CashSource): (Outcome, Impact)
    requires v.realism.Valid()
  {
    var arrival := o.decision + v.latency(s.draws);
    var reply := Sent(v.tape, v.realism, s.record, s.cursor, o, arrival, CashAt(cash, arrival));
    (reply.outcome, Impact(reply.record, reply.cursor, s.draws + 1))
  }

  /** The replay of one episode: the tape, the execution model, the latency draws, and the mutable
      self-impact state that every order of the run shares. */
  class EpisodeReplay {
    const tape: EpisodeTape
    const realism: Realism
    const latency: nat -> nat
    var record: Record
    var cursor: map<Token, nat>
    var draws: nat

    function At(): Venue { Venue(tape, realism, latency) }

    function State(): Impact
      reads this
    {
      Impact(record, cursor, draws)
    }

    constructor (tape: EpisodeTape, realism: Realism, latency: nat -> nat)
      ensures At() == Venue(tape, realism, latency) && State() == NO_IMPACT
    {
      this.tape, this.realism, this.latency := tape, realism, latency;
      record, cursor, draws := map[], map[], 0;
    }

    method Reconcile(token: Token, through: nat)
      requires through < |tape.rows|
      modifies this`record, this`cursor
      ensures record == Reconciled(old(record), old(cursor), tape.rows, token, through)
      ensures cursor == Advanced(old(cursor), token, through)
    {
      if token in cursor && through <= cursor[token] {
        return;
      }
      var first := if token in cursor then cursor[token] + 1 else 0;
      for i := first to through + 1
        invariant record == Replayed(old(record), tape.rows, token, first, i)
        invariant cursor == old(cursor)
      {
        if tape.rows[i].token == token {
          record := Forget(record, token, tape.rows[i].kind);
        }
      }
      cursor := cursor[token := through];
    }

    method Note(token: Token, side: Side, slices: seq<Slice>)
      modifies this`record
      ensures record == Noted(old(record), token, side, slices)
    {
      for i := 0 to |slices|
        invariant record == Noted(old(record), token, side, slices[..i])
      {
        var key := Key(token, side, slices[i].price);
        assert slices[..i + 1][..i] == slices[..i];
        record := record[key := (if key in record then record[key] else 0) + slices[i].size];
      }
      assert slices[..|slices|] == slices;
    }

    method Send(o: Order, cash: CashSource) returns (outcome: Outcome)
      requires realism.Valid()
      requires cash.Some? ==> forall t :: o.decision <= t < tape.end ==> cash.value.requires(t)
      modifies this
      ensures (outcome, State()) == SentBy(At(), old(State()), o, cash)
    {
      hide Matched, RequestOf, Untrusted, Net, TakenOn, Reconciled;
      var arrival := o.decision + latency(draws);
      draws := draws + 1;
      if o.deadline.Some? && arrival > o.deadline.value {
        return Rejection(o.shares, ParentDeadlineElapsed, o.decision, arrival);
      }
      if arrival >= tape.end {
        return Rejection(o.shares, MarketClosedAtArrival, o.decision, arrival);
      }
      var available: Option<int> := if cash.Some? then Some(Max(0, cash.value(arrival))) else None;
      if o.side.Buy? && available.Some? && available.value <= 0 {
        return Rejection(o.shares, InsufficientAvailableCash, o.decision, arrival);
      }
      if o.side.Buy? && o.maxSpend.Some? && available.Some? && available.value < o.maxSpend.value {
        return Rejection(o.shares, InsufficientAvailableCash, o.decision, arrival);
      }
      var at := RowAt(tape.rows, o.token, arrival);
      if at.None? {
        return Rejection(o.shares, NoBookAtArrival, o.decision, arrival);
      }
      var row := at.value;
      if Untrusted(tape, realism, o, arrival, row) {
        return Rejection(o.shares, BookStateUncertain, o.decision, arrival);
      }
      Reconcile(o.token, row);
      var ladder := Net(TakerLadder(tape.rows[row], o.side), TakenOn(record, o.token, Resting(o.side)));
      var q := RequestOf(tape, realism, o, arrival, row, ladder);
      outcome := Match(o, q, ladder, available);
      Note(o.token, Resting(o.side), outcome.slices);
    }

    method Match(o: Order, q: Request, ladder: Ladder, available: Option<int>) returns (outcome: Outcome)
      requires realism.Valid()
      ensures outcome == Matched(realism, o, q, ladder, available)
    {
      outcome := Execute(realism, q, ladder);
      var cashBound := false;
      var spendCap := SpendCap(o, available);
      if o.side.Buy? && spendCap.Some? && outcome.filled > 0 {
        outcome, cashBound := CapBuyToSpend(realism.fee, outcome, spendCap.value);
      }
      var full := outcome.filled == outcome.requested || (NotionalSized(o) && cashBound);
      if o.requireFull && outcome.filled > 0 && !full {
        outcome := Rejection(outcome.requested, PartialEntryDisallowed, outcome.decision, outcome.arrival);
      }
    }
  }

  /** What a fill can and cannot be, whatever the tape, the record and the latency. */
  ghost predicate Bounded(tape: EpisodeTape, r: Realism, o: Order, arrival: int, cash: Option<int>, out: Outcome)
    requires r.Valid()
  {
    && Coherent(r.fee, out)
    && out.decision == o.decision && out.arrival == arrival
    && (o.maxSpend.None? ==> out.requested == o.shares)
    && (out.filled > 0 ==>
          && out.filled <= out.requested
          && arrival < tape.end
          && (o.deadline.Some? ==> arrival <= o.deadline.value)
          && (o.side.Buy? && cash.Some? ==> 0 < cash.value && out.notional + out.fees <= cash.value)
          && (o.side.Buy? && o.maxSpend.Some? ==> out.notional + out.fees <= Max(0, o.maxSpend.value)))
    && (out.rejected == Some(InsufficientAvailableCash) ==> out.filled == 0)
  }

  lemma MatchedBounded(r: Realism, o: Order, q: Request, ladder: Ladder, cash: Option<int>)
    requires r.Valid() && (cash.Some? ==> cash.value >= 0)
    ensures var out := Matched(r, o, q, ladder, cash);
      && Coherent(r.fee, out) && out.requested == q.size
      && out.decision == q.decision && out.arrival == q.arrival
      && out.filled <= Max(0, q.size)
      && (o.side.Buy? && SpendCap(o, cash).Some? ==>
            out.notional + out.fees <= Max(0, SpendCap(o, cash).value))
      && (out.rejected == Some(InsufficientAvailableCash) ==> out.filled == 0)
  {
    var walked := Walk(r, q, ladder);
    WalkClosedForm(r, q, ladder);
    assert TallyOf([]) == Tally(0, 0, 0);
    if SpendCap(o, cash).Some? { CapCoherent(r.fee, walked, SpendCap(o, cash).value); }
  }

  /** Every outcome of sending is bounded: no fill outside the market's or the parent's life, no buy
      that costs more than the cash or the budget at its arrival, no slice that is mispriced. */
  lemma SentBounded(tape: EpisodeTape, r: Realism, record: Record, cursor: map<Token, nat>,
                    o: Order, arrival: int, cash: Option<int>)
    requires r.Valid() && (cash.Some? ==> cash.value >= 0)
    ensures Bounded(tape, r, o, arrival, cash, Sent(tape, r, record, cursor, o, arrival, cash).outcome)
  {
    assert TallyOf([]) == Tally(0, 0, 0);
    var early := EarlyRefusal(tape, o, arrival, cash);
    if early.None? {
      var row := RowAt(tape.rows, o.token, arrival).value;
      var current := Reconciled(record, cursor, tape.rows, o.token, row);
      var ladder := Net(TakerLadder(tape.rows[row], o.side), TakenOn(current, o.token, Resting(o.side)));
      MatchedBounded(r, o, RequestOf(tape, r, o, arrival, row, ladder), ladder, cash);
    }
  }

  ghost predicate PositivePrices(slices: seq<Slice>) { forall s <- slices :: s.price > 0 }

  lemma WalkPrices(r: Realism, q: Request, ladder: Ladder)
    requires r.Valid() && Positive(ladder)
    ensures PositivePrices(Walk(r, q, ladder).slices)
  {
    hide Greedy;
    if Refusal(r, q, ladder).None? {
      assert Positive(Eligible(r, q, ladder));
      GreedyPrices(r, Eligible(r, q, ladder), Budget(r, q), 1);
    }
  }

  lemma TrimPrices(fee: FeeConfig, slices: seq<Slice>, budget: nat)
    requires fee.Valid() && PositivePrices(slices)
    ensures PositivePrices(Trim(fee, slices, budget))
  {
  }

  lemma MatchedPrices(r: Realism, o: Order, q: Request, ladder: Ladder, cash: Option<int>)
    requires r.Valid() && Positive(ladder)
    ensures PositivePrices(Matched(r, o, q, ladder, cash).slices)
  {
    hide Walk, Trim, CutAt, PositivePrices;
    WalkPrices(r, q, ladder);
    NoPrices();
    var capped := o.side.Buy? && SpendCap(o, cash).Some? && Walk(r, q, ladder).filled > 0;
    if capped { TrimPrices(r.fee, Walk(r, q, ladder).slices, Max(0, SpendCap(o, cash).value)); }
  }

  lemma NoPrices()
    ensures PositivePrices([])
  {
  }

  /** Fills happen at prices the tape's ladders show, and those are positive. */
  lemma SentPrices(tape: EpisodeTape, r: Realism, record: Record, cursor: map<Token, nat>,
                   o: Order, arrival: int, cash: Option<int>)
    requires r.Valid() && WellFormed(tape)
    ensures PositivePrices(Sent(tape, r, record, cursor, o, arrival, cash).outcome.slices)
  {
    hide Matched, RequestOf, TakenOn, IsUncertain, Reconciled, Positive;
    if EarlyRefusal(tape, o, arrival, cash).None? {
      var row := RowAt(tape.rows, o.token, arrival).value;
      assert tape.rows[row] in tape.rows;
      var current := Reconciled(record, cursor, tape.rows, o.token, row);
      var taken := TakenOn(current, o.token, Resting(o.side));
      var ladder := Net(TakerLadder(tape.rows[row], o.side), taken);
      NetPositive(TakerLadder(tape.rows[row], o.side), taken);
      MatchedPrices(r, o, RequestOf(tape, r, o, arrival, row, ladder), ladder, cash);
    }
  }
}
