/** What sending an order does, told from the tape: which row it meets, what is left of the levels that row displays, what
    it takes of them, what it pays, and what is remembered of it. */
module SendRules {
  import opened FixedPoint
  import opened Fees
  import opened Market
  import opened Ladders
  import opened TakerWalk
  import opened Affordability
  import opened Reconstruction
  import opened Tapes
  import opened SelfImpact
  import opened Sending

  // ---- consumption that still counts --------------------------------------------------------

  function Recorded(record: Record, k: Key): nat { if k in record then record[k] else 0 }

  /** A row restates a price of its token: it is a snapshot, or an update of that side and price. */
  predicate Restates(row: Row, k: Key)
  {
    && row.token == k.token
    && match row.kind
       case SnapshotRow => true
       case TickRow => false
       case UpdateRow(side, price) => side == k.side && price == k.price
  }

  /** Consumption recorded at a price, unless a row in `lo..hi` has restated it. */
  ghost function StillTaken(record: Record, rows: seq<Row>, k: Key, lo: nat, hi: nat): nat
    requires hi <= |rows|
  {
    if exists j :: lo <= j < hi && Restates(rows[j], k) then 0 else Recorded(record, k)
  }

  lemma {:induction false} ReplayedAt(record: Record, rows: seq<Row>, token: Token, lo: nat, hi: nat, k: Key)
    requires hi <= |rows|
    ensures Recorded(Replayed(record, rows, token, lo, hi), k)
         == if k.token == token then StillTaken(record, rows, k, lo, hi) else Recorded(record, k)
    decreases hi
  {
    if hi > lo {
      ReplayedAt(record, rows, token, lo, hi - 1, k);
      if exists j :: lo <= j < hi && Restates(rows[j], k) {
        var j :| lo <= j < hi && Restates(rows[j], k);
        assert j == hi - 1 || lo <= j < hi - 1;
      }
    }
  }

  function SizeTaken(slices: seq<Slice>, price: nat): nat
  {
    if slices == [] then 0
    else
      SizeTaken(slices[..|slices| - 1], price)
      + if slices[|slices| - 1].price == price then slices[|slices| - 1].size else 0
  }

  lemma {:induction false} NotedAt(record: Record, token: Token, side: Side, slices: seq<Slice>, k: Key)
    ensures Recorded(Noted(record, token, side, slices), k)
         == Recorded(record, k) + if k.token == token && k.side == side then SizeTaken(slices, k.price) else 0
  {
    if slices != [] { NotedAt(record, token, side, slices[..|slices| - 1], k); }
  }

  // ---- the rule -----------------------------------------------------------------------------

  /** The row is the last of its token at or before an instant. */
  ghost predicate Meets(tape: EpisodeTape, token: Token, time: int, i: nat)
  {
    && i < |tape.rows| && tape.rows[i].token == token && tape.rows[i].time <= time
    && forall j :: i < j < |tape.rows| ==> tape.rows[j].token != token || tape.rows[j].time > time
  }

  /** A span covers an instant, both its ends included. */
  ghost predicate Distrusted(spans: seq<Interval>, token: Token, time: int)
  {
    exists s <- spans :: s.token == token && s.start <= time && match s.end case None => true case Some(end) => time <= end
  }

  /** First row of a token that has not been folded into the record. */
  function FirstUnseen(cursor: map<Token, nat>, token: Token): nat { if token in cursor then cursor[token] + 1 else 0 }

  /** A level is what consumption that still counts has left of a displayed one. */
  ghost predicate Left(l: Level, shown: Ladder, tape: EpisodeTape, record: Record, cursor: map<Token, nat>, o: Order, i: nat)
    requires i < |tape.rows|
  {
    var k := Key(o.token, if o.side.Buy? then Sell else Buy, l.price);
    && l.size > 0
    && Level(l.price, l.size + StillTaken(record, tape.rows, k, FirstUnseen(cursor, o.token), i + 1)) in shown
  }

  /** `net` is exactly what is left of the levels row `i` displays to the taker, best first. */
  ghost predicate LeftOver(net: Ladder, tape: EpisodeTape, record: Record, cursor: map<Token, nat>, o: Order, i: nat)
    requires i < |tape.rows|
  {
    var shown := if o.side.Buy? then tape.rows[i].asks else tape.rows[i].bids;
    && (forall l: Level :: l in net <==> Left(l, shown, tape, record, cursor, o, i))
    && (BestFirst(o.side, shown) ==> BestFirst(o.side, net))
  }

  /** Size asked for: the order's own, or for a dollar buy the most its dollars buy at the best price left. */
  ghost predicate AsksFor(r: Realism, o: Order, net: Ladder, size: int)
    requires r.Valid()
  {
    if o.side.Buy? && o.maxSpend.Some? && net != []
    then size == MaxAffordable(r.fee, o.maxSpend.value, net[0].price, None)
    else size == o.shares
  }

  /** Money a fill may cost: a buy is bound by its own dollars, or else by the cash at its arrival. */
  function MayCost(o: Order, cash: Option<int>): Option<int>
  {
    if o.side.Sell? then None else if o.maxSpend.Some? then o.maxSpend else cash
  }

  /** `kept` is what a budget pays of some slices, in order: as many whole ones as it pays, then as much of the next as
      the rest buys. The rest buys no further unit, unless nothing is left and a unit costs nothing. */
  ghost predicate PaidPart(fee: FeeConfig, slices: seq<Slice>, kept: seq<Slice>, budget: nat, n: nat)
    requires fee.Valid()
  {
    && n < |slices| && n <= |kept| <= n + 1 && kept[..n] == slices[..n]
    && Spent(slices[..n]) <= budget && Spent(kept) <= budget < Spent(slices[..n + 1])
    && (|kept| == n + 1 ==>
          0 < kept[n].size < slices[n].size && kept[n] == FillSlice(fee, slices[n].price, kept[n].size, slices[n].rank))
    && var size: nat := if |kept| == n + 1 then kept[n].size else 0;
       || slices[n].price == 0
       || Spent(slices[..n]) + Cost(fee, size + 1, slices[n].price) > budget
       || (Spent(slices[..n]) == budget && Cost(fee, 1, slices[n].price) == 0)
  }

  /** What is paid of what was walked: all of it when it fits the money, else the part the money pays. */
  ghost predicate Pays(r: Realism, o: Order, cash: Option<int>, walked: Outcome, paid: Outcome)
    requires r.Valid()
  {
    var cap := MayCost(o, cash);
    if cap.None? || Spent(walked.slices) <= Max(0, cap.value) then paid == walked
    else
      && paid.requested == walked.requested && paid.decision == walked.decision && paid.arrival == walked.arrival
      && (exists n: nat :: PaidPart(r.fee, walked.slices, paid.slices, Max(0, cap.value), n))
      && paid.rejected == (if paid.filled > 0 then walked.rejected else Some(InsufficientCashIncludingFees))
  }

  /** An order that must fill whole keeps a part only when its dollars ran out. */
  ghost predicate Keeps(o: Order, cash: Option<int>, walked: Outcome, paid: Outcome, out: Outcome)
  {
    var ranOut := o.side.Buy? && o.maxSpend.Some? && Spent(walked.slices) > Max(0, o.maxSpend.value);
    if o.requireFull && paid.filled > 0 && paid.filled != paid.requested && !ranOut
    then out == Rejection(paid.requested, PartialEntryDisallowed, paid.decision, paid.arrival)
    else out == paid
  }

  /** What is remembered: restated prices are forgotten, and the fill is added at its own prices. */
  ghost predicate Remembers(tape: EpisodeTape, record: Record, cursor: map<Token, nat>, o: Order, i: nat, reply: Reply)
    requires i < |tape.rows|
  {
    && (forall k: Key :: k.token != o.token ==> Recorded(reply.record, k) == Recorded(record, k))
    && (forall k: Key :: k.token == o.token ==>
          Recorded(reply.record, k)
            == StillTaken(record, tape.rows, k, FirstUnseen(cursor, o.token), i + 1)
               + if k.side == (if o.side.Buy? then Sell else Buy) then SizeTaken(reply.outcome.slices, k.price) else 0)
    && FirstUnseen(reply.cursor, o.token) == Max(FirstUnseen(cursor, o.token), i + 1)
    && (forall t: Token :: t != o.token ==> FirstUnseen(reply.cursor, t) == FirstUnseen(cursor, t))
  }

  /** An order that trades on row `i`. */
  ghost predicate TradesOn(tape: EpisodeTape, r: Realism, record: Record, cursor: map<Token, nat>, o: Order, arrival: int,
                           cash: Option<int>, reply: Reply, i: nat, net: Ladder, walked: Outcome, paid: Outcome)
    requires r.Valid() && i < |tape.rows|
  {
    && LeftOver(net, tape, record, cursor, o, i)
    && AsksFor(r, o, net, walked.requested)
    && TakesAllItMay(r, Request(o.side, walked.requested, o.limit, None, o.decision, arrival,
                                arrival - tape.rows[i].time, tape.minimum, tape.tick), net, walked)
    && Coherent(r.fee, walked) && Coherent(r.fee, paid)
    && Pays(r, o, cash, walked, paid) && Keeps(o, cash, walked, paid, reply.outcome)
    && Remembers(tape, record, cursor, o, i, reply)
  }

  ghost predicate RefusedFor(record: Record, cursor: map<Token, nat>, o: Order, arrival: int, reply: Reply, reason: Reason)
  {
    reply == Reply(Rejection(o.shares, reason, o.decision, arrival), record, cursor)
  }

  /** What sending an order does. Late for its parent or for the market, short of cash, without a book or with one that
      may not be trusted, it is refused and changes nothing; otherwise it trades on the row it meets. */
  ghost predicate SendRule(tape: EpisodeTape, r: Realism, record: Record, cursor: map<Token, nat>, o: Order, arrival: int,
                           cash: Option<int>, reply: Reply)
    requires r.Valid()
  {
    if o.deadline.Some? && arrival > o.deadline.value then RefusedFor(record, cursor, o, arrival, reply, ParentDeadlineElapsed)
    else if arrival >= tape.end then RefusedFor(record, cursor, o, arrival, reply, MarketClosedAtArrival)
    else if o.side.Buy? && cash.Some? && (cash.value <= 0 || (o.maxSpend.Some? && cash.value < o.maxSpend.value))
      then RefusedFor(record, cursor, o, arrival, reply, InsufficientAvailableCash)
    else if forall i: nat :: !Meets(tape, o.token, arrival, i)
      then RefusedFor(record, cursor, o, arrival, reply, NoBookAtArrival)
    else
      exists i: nat ::
        && Meets(tape, o.token, arrival, i)
        && if r.requireValid && (!tape.rows[i].valid || Distrusted(tape.spans, o.token, arrival))
           then RefusedFor(record, cursor, o, arrival, reply, BookStateUncertain)
           else
             exists net: Ladder, walked: Outcome, paid: Outcome ::
               TradesOn(tape, r, record, cursor, o, arrival, cash, reply, i, net, walked, paid)
  }

  lemma DistrustedMeans(spans: seq<Interval>, token: Token, time: int)
    ensures IsUncertain(spans, token, time) <==> Distrusted(spans, token, time)
  {
  }

  // ---- sending follows the rule -------------------------------------------------------------

  lemma NetIsLeftOver(tape: EpisodeTape, record: Record, cursor: map<Token, nat>, o: Order, i: nat)
    requires i < |tape.rows|
    ensures var current := Reconciled(record, cursor, tape.rows, o.token, i);
      LeftOver(Net(TakerLadder(tape.rows[i], o.side), TakenOn(current, o.token, Resting(o.side))), tape, record, cursor, o, i)
  {
    hide StillTaken, Reconciled, TakenOn, Net, BestFirst;
    var current := Reconciled(record, cursor, tape.rows, o.token, i);
    var shown, taken := TakerLadder(tape.rows[i], o.side), TakenOn(current, o.token, Resting(o.side));
    if BestFirst(o.side, shown) { NetKeepsOrder(o.side, shown, taken); }
    forall l: Level ensures l in Net(shown, taken) <==> Left(l, shown, tape, record, cursor, o, i) {
      NetExactly(shown, taken, l);
      TakenOnAt(current, o.token, Resting(o.side), l.price);
      ReconciledAt(record, cursor, tape.rows, o.token, i, Key(o.token, Resting(o.side), l.price));
    }
  }

  lemma ReconciledAt(record: Record, cursor: map<Token, nat>, rows: seq<Row>, token: Token, i: nat, k: Key)
    requires i < |rows|
    ensures Recorded(Reconciled(record, cursor, rows, token, i), k)
         == if k.token == token then StillTaken(record, rows, k, FirstUnseen(cursor, token), i + 1) else Recorded(record, k)
  {
    ReplayedAt(record, rows, token, FirstUnseen(cursor, token), i + 1, k);
  }

  lemma ReplyRemembers(tape: EpisodeTape, record: Record, cursor: map<Token, nat>, o: Order, i: nat, outcome: Outcome)
    requires i < |tape.rows|
    ensures var current := Reconciled(record, cursor, tape.rows, o.token, i);
      Remembers(tape, record, cursor, o, i,
        Reply(outcome, Noted(current, o.token, Resting(o.side), outcome.slices), Advanced(cursor, o.token, i)))
  {
    hide StillTaken, Reconciled, Noted, SizeTaken, Recorded;
    var current := Reconciled(record, cursor, tape.rows, o.token, i);
    forall k: Key
      ensures Recorded(Noted(current, o.token, Resting(o.side), outcome.slices), k)
        == (if k.token == o.token then StillTaken(record, tape.rows, k, FirstUnseen(cursor, o.token), i + 1) else Recorded(record, k))
           + if k.token == o.token && k.side == Resting(o.side) then SizeTaken(outcome.slices, k.price) else 0
    {
      NotedAt(current, o.token, Resting(o.side), outcome.slices, k);
      ReconciledAt(record, cursor, tape.rows, o.token, i, k);
    }
  }

  lemma TrimIsPaidPart(fee: FeeConfig, slices: seq<Slice>, budget: nat)
    requires fee.Valid() && AllPriced(fee, slices) && Spent(slices) > budget
    ensures PaidPart(fee, slices, Trim(fee, slices, budget), budget, CutAt(slices, budget))
  {
    hide Cost, MaxAffordable, FillSlice;
    TrimTotals(fee, slices, budget);
    TrimShape(fee, slices, budget);
    CutFits(fee, slices, budget);
    var n := CutAt(slices, budget);
    if slices[n].price > 0 { TrimMaximalIff(fee, slices, budget); }
    SliceSize(fee, slices[n].price, CutSize(fee, slices, budget), slices[n].rank);
  }

  lemma SliceSize(fee: FeeConfig, price: nat, size: nat, rank: nat)
    requires fee.Valid()
    ensures FillSlice(fee, price, size, rank).size == size
  {
  }

  lemma CapPays(r: Realism, o: Order, cash: Option<int>, walked: Outcome)
    requires r.Valid() && Coherent(r.fee, walked) && walked.filled > 0 && MayCost(o, cash).Some?
    ensures var paid := CapOutcome(r.fee, walked, MayCost(o, cash).value); Coherent(r.fee, paid) && Pays(r, o, cash, walked, paid)
  {
    hide Trim, CutAt, PaidPart;
    var budget := Max(0, MayCost(o, cash).value);
    CapCoherent(r.fee, walked, MayCost(o, cash).value);
    if Spent(walked.slices) > budget {
      TrimIsPaidPart(r.fee, walked.slices, budget);
    } else {
      PaidInFull(r.fee, walked.slices, budget);
    }
  }

  lemma PaidInFull(fee: FeeConfig, slices: seq<Slice>, budget: nat)
    requires fee.Valid() && AllPriced(fee, slices) && Spent(slices) <= budget
    ensures Trim(fee, slices, budget) == slices
  {
    TrimTotals(fee, slices, budget);
  }

  lemma MatchedFollows(r: Realism, o: Order, q: Request, net: Ladder, cash: Option<int>)
    returns (walked: Outcome, paid: Outcome)
    requires r.Valid()
    ensures walked.requested == q.size && TakesAllItMay(r, q, net, walked)
    ensures Coherent(r.fee, walked) && Coherent(r.fee, paid) && Pays(r, o, cash, walked, paid)
    ensures Keeps(o, cash, walked, paid, Matched(r, o, q, net, cash))
  {
    hide TakesAllItMay, Walk, CapOutcome, CutAt;
    walked := Walk(r, q, net);
    WalkClosedForm(r, q, net);
    WalkTakesAllItMay(r, q, net);
    if MayCost(o, cash).Some? && walked.filled > 0 {
      paid := CapOutcome(r.fee, walked, MayCost(o, cash).value);
      CapPays(r, o, cash, walked);
      TrimTotals(r.fee, walked.slices, Max(0, MayCost(o, cash).value));
    } else {
      paid := walked;
      assert TallyOf([]) == Tally(0, 0, 0);
    }
  }

  /** Sending an order follows the rule, whatever the tape, the record and the cash. */
  lemma SentByRule(tape: EpisodeTape, r: Realism, record: Record, cursor: map<Token, nat>, o: Order, arrival: int, cash: Option<int>)
    requires r.Valid()
    ensures SendRule(tape, r, record, cursor, o, arrival, cash, Sent(tape, r, record, cursor, o, arrival, cash))
  {
    hide Matched, Net, TakenOn, Reconciled, Noted, SelfImpact.Advanced, LeftOver, TakesAllItMay, Pays, Keeps, Remembers,
      IsUncertain, Distrusted, Coherent;
    DistrustedMeans(tape.spans, o.token, arrival);
    var reply := Sent(tape, r, record, cursor, o, arrival, cash);
    if EarlyRefusal(tape, o, arrival, cash).None? {
      var i := RowAt(tape.rows, o.token, arrival).value;
      assert Meets(tape, o.token, arrival, i);
      var current := Reconciled(record, cursor, tape.rows, o.token, i);
      var net := Net(TakerLadder(tape.rows[i], o.side), TakenOn(current, o.token, Resting(o.side)));
      var walked, paid := MatchedFollows(r, o, RequestOf(tape, r, o, arrival, i, net), net, cash);
      if !Untrusted(tape, r, o, arrival, i) {
        NetIsLeftOver(tape, record, cursor, o, i);
        ReplyRemembers(tape, record, cursor, o, i, reply.outcome);
        assert TradesOn(tape, r, record, cursor, o, arrival, cash, reply, i, net, walked, paid);
      } else {
        assert RefusedFor(record, cursor, o, arrival, reply, BookStateUncertain);
      }
    }
  }

  /** An order arrives the next latency after its decision, and follows the rule with the cash there is then. */
  lemma VenueByRule(v: Venue, s: Impact, o: Order, cash: CashSource)
    requires v.realism.Valid()
    ensures var (outcome, after) := SentBy(v, s, o, cash);
      var arrival := o.decision + v.latency(s.draws);
      var cashThen := if cash.Some? && cash.value.requires(arrival) then Some(Max(0, cash.value(arrival))) else None;
      && SendRule(v.tape, v.realism, s.record, s.cursor, o, arrival, cashThen, Reply(outcome, after.record, after.cursor))
      && after.draws == s.draws + 1
  {
    hide Sent, SendRule;
    var arrival := o.decision + v.latency(s.draws);
    SentByRule(v.tape, v.realism, s.record, s.cursor, o, arrival, CashAt(cash, arrival));
  }
}
