/** The timestamped collateral ledger of account-level replay. */
module Wallets {
  import opened FixedPoint

  /** A future-dated credit, in its priority-queue position: earliest first, then first scheduled. */
  datatype Credit = Credit(time: int, sequence: nat, amount: int)

  datatype WalletEvent = WalletEvent(time: int, amount: int, balance: int)

  datatype Ledger = Ledger(available: int, now: int, pending: seq<Credit>, sequence: nat, events: seq<WalletEvent>)

  function OpenLedger(cash: int, start: int): Ledger { Ledger(cash, start, [], 0, []) }

  function SumOf(pending: seq<Credit>): int
  {
    if pending == [] then 0 else pending[0].amount + SumOf(pending[1..])
  }

  /** Credits due by `time`. */
  function DueBy(pending: seq<Credit>, time: int): int
  {
    if pending == [] then 0 else (if pending[0].time <= time then pending[0].amount else 0) + DueBy(pending[1..], time)
  }

  function Equity(l: Ledger): int { l.available + SumOf(l.pending) }

  /** Cash available by `time`, without moving the ledger; asking about the past is an error. */
  function Peek(l: Ledger, time: int): int
    requires time >= l.now
  {
    l.available + DueBy(l.pending, time)
  }

  /** The earliest credit becomes cash. */
  function Released(l: Ledger): Ledger
    requires l.pending != []
  {
    var c := l.pending[0];
    l.(available := l.available + c.amount, pending := l.pending[1..],
       events := l.events + [WalletEvent(c.time, c.amount, l.available + c.amount)])
  }

  function Drained(l: Ledger, time: int): Ledger
    decreases |l.pending|
  {
    if l.pending != [] && l.pending[0].time <= time then Drained(Released(l), time) else l
  }

  function Advanced(l: Ledger, time: int): Ledger { Drained(l, time).(now := time) }

  function Moved(l: Ledger, time: int, amount: int): Ledger
  {
    l.(available := l.available + amount, events := l.events + [WalletEvent(time, amount, l.available + amount)])
  }

  function Queued(pending: seq<Credit>, c: Credit): seq<Credit>
  {
    if pending == [] || c.time < pending[0].time then [c] + pending
    else [pending[0]] + Queued(pending[1..], c)
  }

  function Scheduled(l: Ledger, time: int, amount: int): Ledger
  {
    if amount == 0 then l
    else if time <= l.now then Moved(l, l.now, amount)
    else l.(sequence := l.sequence + 1, pending := Queued(l.pending, Credit(time, l.sequence + 1, amount)))
  }

  datatype Verdict = Fine | Backwards | Negative | Insufficient

  /** A debit first advances the ledger; when the cash is not there it fails with the time already moved. */
  function Debited(l: Ledger, time: int, amount: int): (Ledger, Verdict)
  {
    if amount < 0 then (l, Negative)
    else if time < l.now then (l, Backwards)
    else
      var a := Advanced(l, time);
      if amount > a.available then (a, Insufficient) else (Moved(a, time, -amount), Fine)
  }

  function Credited(l: Ledger, time: int, amount: int): (Ledger, Verdict)
  {
    if amount < 0 then (l, Negative)
    else if time < l.now then (l, Backwards)
    else (Moved(Advanced(l, time), time, amount), Fine)
  }

  /** The wallet object. */
  class ReplayWallet {
    var available: int
    var now: int
    var pending: seq<Credit>
    var sequence: nat
    var events: seq<WalletEvent>

    constructor (cash: nat, start: nat)
      ensures State() == OpenLedger(cash, start)
    {
      available, now, pending, sequence, events := cash, start, [], 0, [];
    }

    function State(): Ledger
      reads this
    {
      Ledger(available, now, pending, sequence, events)
    }

    method AdvanceTo(time: int) returns (verdict: Verdict)
      modifies this
      ensures verdict == if time < old(now) then Backwards else Fine
      ensures State() == if time < old(now) then old(State()) else Advanced(old(State()), time)
    {
      if time < now {
        return Backwards;
      }
      while pending != [] && pending[0].time <= time
        invariant now == old(now) && Drained(State(), time) == Drained(old(State()), time)
        decreases |pending|
      {
        var c := pending[0];
        pending := pending[1..];
        available := available + c.amount;
        events := events + [WalletEvent(c.time, c.amount, available)];
      }
      now := time;
      return Fine;
    }

    method Debit(time: int, amount: int) returns (verdict: Verdict)
      modifies this
      ensures (State(), verdict) == Debited(old(State()), time, amount)
    {
      if amount < 0 {
        return Negative;
      }
      verdict := AdvanceTo(time);
      if verdict.Backwards? {
        return;
      }
      if amount > available {
        return Insufficient;
      }
      available := available - amount;
      events := events + [WalletEvent(time, -amount, available)];
    }

    method CreditAt(time: int, amount: int) returns (verdict: Verdict)
      modifies this
      ensures (State(), verdict) == Credited(old(State()), time, amount)
    {
      if amount < 0 {
        return Negative;
      }
      verdict := AdvanceTo(time);
      if verdict.Backwards? {
        return;
      }
      available := available + amount;
      events := events + [WalletEvent(time, amount, available)];
    }

    method ScheduleCredit(time: int, amount: int)
      modifies this
      ensures State() == Scheduled(old(State()), time, amount)
    {
      if amount == 0 {
        return;
      }
      if time <= now {
        available := available + amount;
        events := events + [WalletEvent(now, amount, available)];
        return;
      }
      sequence := sequence + 1;
      pending := Queued(pending, Credit(time, sequence, amount));
    }

    method PeekAvailableAt(time: int) returns (verdict: Verdict, cash: int)
      ensures verdict == if time < now then Backwards else Fine
      ensures verdict.Fine? ==> cash == Peek(State(), time)
    {
      if time < now {
        return Backwards, 0;
      }
      return Fine, available + DueBy(pending, time);
    }
  }

  // ---- what every run keeps -----------------------------------------------------------------

  function NetOf(events: seq<WalletEvent>): int
  {
    if events == [] then 0 else NetOf(events[..|events| - 1]) + events[|events| - 1].amount
  }

  ghost predicate Before(a: Credit, b: Credit)
  {
    a.time < b.time || (a.time == b.time && a.sequence < b.sequence)
  }

  ghost predicate Ordered(pending: seq<Credit>)
  {
    forall i, j :: 0 <= i < j < |pending| ==> Before(pending[i], pending[j])
  }

  /** Credits wait in release order, all of them later than now. */
  ghost predicate QueueOk(pending: seq<Credit>, now: int, sequence: nat)
  {
    && (forall c <- pending :: c.time > now && c.amount >= 0 && c.sequence <= sequence)
    && Ordered(pending)
  }

  /** The balance recorded with an event is the start plus everything moved so far. */
  ghost predicate Replays(start: int, events: seq<WalletEvent>, i: nat)
    requires i < |events|
  {
    events[i].balance == start + NetOf(events[..i + 1])
  }

  /** The log is in time order and replays, entry by entry, to the available balance. */
  ghost predicate LogOk(start: int, available: int, now: int, events: seq<WalletEvent>)
  {
    && (forall e <- events :: e.time <= now)
    && (forall i, j :: 0 <= i < j < |events| ==> events[i].time <= events[j].time)
    && (forall i :: 0 <= i < |events| ==> Replays(start, events, i))
    && available == start + NetOf(events)
  }

  ghost predicate Sound(start: int, l: Ledger)
  {
    l.available >= 0 && QueueOk(l.pending, l.now, l.sequence) && LogOk(start, l.available, l.now, l.events)
  }

  lemma LogAppend(start: int, available: int, now: int, events: seq<WalletEvent>, time: int, amount: int)
    requires LogOk(start, available, now, events) && now <= time
    ensures LogOk(start, available + amount, time, events + [WalletEvent(time, amount, available + amount)])
  {
    var n, all := |events|, events + [WalletEvent(time, amount, available + amount)];
    assert all[..n] == events && all[..n + 1] == all;
    forall i | 0 <= i < |all| ensures Replays(start, all, i) {
      if i < n {
        assert Replays(start, events, i) && all[..i + 1] == events[..i + 1];
      }
    }
  }

  lemma OrderedCons(head: Credit, tail: seq<Credit>)
    requires Ordered(tail) && forall x <- tail :: Before(head, x)
    ensures Ordered([head] + tail)
  {
  }

  lemma {:induction false} QueuedSum(pending: seq<Credit>, c: Credit)
    ensures SumOf(Queued(pending, c)) == SumOf(pending) + c.amount
    ensures multiset(Queued(pending, c)) == multiset(pending) + multiset{c}
  {
    if pending == [] || c.time < pending[0].time {
      assert ([c] + pending)[1..] == pending;
    } else {
      var head, tail := pending[0], pending[1..];
      QueuedSum(tail, c);
      assert ([head] + Queued(tail, c))[1..] == Queued(tail, c);
      assert pending == [head] + tail;
    }
  }

  lemma QueuedMembers(pending: seq<Credit>, c: Credit, queue: seq<Credit>)
    requires multiset(queue) == multiset(pending) + multiset{c}
    ensures forall x :: x in queue <==> x == c || x in pending
  {
    forall x ensures x in queue <==> x == c || x in pending {
      assert x in multiset(queue) <==> x == c || x in multiset(pending);
    }
  }

  lemma QueuedFirst(pending: seq<Credit>, c: Credit)
    requires Ordered(pending) && (pending != [] ==> c.time < pending[0].time)
    ensures Ordered([c] + pending)
  {
  }

  lemma QueuedLater(pending: seq<Credit>, c: Credit, queue: seq<Credit>)
    requires pending != [] && Ordered(pending) && pending[0].time <= c.time && pending[0].sequence < c.sequence
    requires Ordered(queue) && multiset(queue) == multiset(pending[1..]) + multiset{c}
    ensures Ordered([pending[0]] + queue)
  {
    var rest := pending[1..];
    QueuedMembers(rest, c, queue);
    forall x | x in queue ensures Before(pending[0], x) {
      if x != c {
        var i :| 0 <= i < |rest| && rest[i] == x;
        assert pending[i + 1] == x;
      }
    }
    OrderedCons(pending[0], queue);
  }

  /** A newly scheduled credit takes its place behind every credit due no later. */
  lemma {:induction false} QueuedOrdered(pending: seq<Credit>, c: Credit)
    requires Ordered(pending) && forall x <- pending :: x.sequence < c.sequence
    ensures Ordered(Queued(pending, c))
    ensures forall x :: x in Queued(pending, c) <==> x == c || x in pending
    ensures SumOf(Queued(pending, c)) == SumOf(pending) + c.amount
  {
    hide Before, SumOf;
    QueuedSum(pending, c);
    QueuedMembers(pending, c, Queued(pending, c));
    if pending == [] || c.time < pending[0].time {
      QueuedFirst(pending, c);
    } else {
      assert pending[0] in pending;
      QueuedOrdered(pending[1..], c);
      QueuedSum(pending[1..], c);
      QueuedLater(pending, c, Queued(pending[1..], c));
    }
  }

  lemma QueuedOk(pending: seq<Credit>, now: int, sequence: nat, c: Credit)
    requires QueueOk(pending, now, sequence) && c.time > now && c.amount >= 0 && c.sequence == sequence + 1
    ensures QueueOk(Queued(pending, c), now, sequence + 1)
    ensures SumOf(Queued(pending, c)) == SumOf(pending) + c.amount
  {
    hide Ordered, Queued;
    QueuedOrdered(pending, c);
  }

  lemma {:induction false} NothingDue(pending: seq<Credit>, time: int)
    requires forall c <- pending :: c.time > time
    ensures DueBy(pending, time) == 0
  {
    if pending != [] {
      assert pending[0] in pending;
      NothingDue(pending[1..], time);
    }
  }

  /** Draining due credits: the balance grows by exactly what was due, equity stays, only later credits
      remain, and the log stays sound. `floor` is the time of the last event logged. */
  lemma {:induction false} DrainedSound(start: int, l: Ledger, time: int, floor: int)
    requires l.available >= 0 && QueueOk(l.pending, l.now, l.sequence) && l.now <= floor <= time
    requires LogOk(start, l.available, floor, l.events) && forall c <- l.pending :: c.time >= floor
    ensures var d := Drained(l, time);
      && d.available == l.available + DueBy(l.pending, time) && d.available >= l.available
      && Equity(d) == Equity(l) && d.now == l.now && d.sequence == l.sequence
      && QueueOk(d.pending, time, d.sequence) && LogOk(start, d.available, time, d.events)
    decreases |l.pending|
  {
    hide LogOk;
    if l.pending != [] && l.pending[0].time <= time {
      var c := l.pending[0];
      assert c in l.pending;
      LogAppend(start, l.available, floor, l.events, c.time, c.amount);
      assert forall x <- l.pending[1..] :: x in l.pending;
      forall x | x in l.pending ensures x.time >= c.time {
        var i :| 0 <= i < |l.pending| && l.pending[i] == x;
        assert i > 0 ==> Before(l.pending[0], l.pending[i]);
      }
      DrainedSound(start, Released(l), time, c.time);
    } else {
      forall x | x in l.pending ensures x.time > time {
        var i :| 0 <= i < |l.pending| && l.pending[i] == x;
        assert i > 0 ==> Before(l.pending[0], l.pending[i]);
      }
      NothingDue(l.pending, time);
      LogLater(start, l.available, floor, l.events, time);
    }
  }

  lemma LogLater(start: int, available: int, now: int, events: seq<WalletEvent>, time: int)
    requires LogOk(start, available, now, events) && now <= time
    ensures LogOk(start, available, time, events)
  {
  }

  /** Advancing keeps the ledger sound and its total equity, and leaves exactly the cash that peeking
      announced. */
  lemma AdvancedSound(start: int, l: Ledger, time: int)
    requires Sound(start, l) && l.now <= time
    ensures var a := Advanced(l, time);
      Sound(start, a) && a.available == Peek(l, time) && Equity(a) == Equity(l) && a.now == time
  {
    DrainedSound(start, l, time, l.now);
  }

  lemma MovedSound(start: int, l: Ledger, amount: int)
    requires Sound(start, l) && l.available + amount >= 0
    ensures Sound(start, Moved(l, l.now, amount)) && Equity(Moved(l, l.now, amount)) == Equity(l) + amount
  {
    hide LogOk;
    LogAppend(start, l.available, l.now, l.events, l.now, amount);
  }

  lemma ScheduledSound(start: int, l: Ledger, time: int, amount: nat)
    requires Sound(start, l)
    ensures Sound(start, Scheduled(l, time, amount)) && Equity(Scheduled(l, time, amount)) == Equity(l) + amount
    ensures Scheduled(l, time, amount).now == l.now
  {
    hide LogOk, Ordered, Queued;
    if amount > 0 && time <= l.now {
      MovedSound(start, l, amount);
    } else if amount > 0 {
      QueuedOk(l.pending, l.now, l.sequence, Credit(time, l.sequence + 1, amount));
    }
  }

  // ---- every operation sequence -------------------------------------------------------------

  datatype Op = AdvanceOp(time: int) | DebitOp(time: int, amount: int) | CreditOp(time: int, amount: int)
    | ScheduleOp(time: int, credit: nat)

  function After(l: Ledger, op: Op): Ledger
  {
    match op
    case AdvanceOp(t) => if t < l.now then l else Advanced(l, t)
    case DebitOp(t, a) => Debited(l, t, a).0
    case CreditOp(t, a) => Credited(l, t, a).0
    case ScheduleOp(t, a) => Scheduled(l, t, a)
  }

  function AfterAll(l: Ledger, ops: seq<Op>): Ledger
  {
    if ops == [] then l else After(AfterAll(l, ops[..|ops| - 1]), ops[|ops| - 1])
  }

  lemma AfterSound(start: int, l: Ledger, op: Op)
    requires Sound(start, l)
    ensures Sound(start, After(l, op))
  {
    hide Sound, Drained;
    match op
    case AdvanceOp(t) => if t >= l.now { AdvancedSound(start, l, t); }
    case DebitOp(t, a) =>
      if a >= 0 && t >= l.now {
        AdvancedSound(start, l, t);
        if a <= Advanced(l, t).available { MovedSound(start, Advanced(l, t), -a); }
      }
    case CreditOp(t, a) =>
      if a >= 0 && t >= l.now {
        AdvancedSound(start, l, t);
        NonNegative(start, Advanced(l, t));
        MovedSound(start, Advanced(l, t), a);
      }
    case ScheduleOp(t, a) => ScheduledSound(start, l, t, a);
  }

  lemma NonNegative(start: int, l: Ledger)
    requires Sound(start, l)
    ensures l.available >= 0
  {
  }

  /** For every operation sequence, refused operations included: pending credits are later than now, cash
      is never negative, the log is time-ordered and replays to the balance, and peeking at any later
      time announces exactly what advancing there would leave, with total equity unchanged. */
  lemma {:induction false} LedgerKept(cash: nat, start: nat, ops: seq<Op>, time: int)
    ensures var l := AfterAll(OpenLedger(cash, start), ops);
      && Sound(cash, l)
      && (time >= l.now ==> Advanced(l, time).available == Peek(l, time) && Equity(Advanced(l, time)) == Equity(l))
  {
    if ops != [] {
      LedgerKept(cash, start, ops[..|ops| - 1], time);
      AfterSound(cash, AfterAll(OpenLedger(cash, start), ops[..|ops| - 1]), ops[|ops| - 1]);
    }
    var l := AfterAll(OpenLedger(cash, start), ops);
    if time >= l.now { AdvancedSound(cash, l, time); }
  }
}
