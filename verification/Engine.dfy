/** The event loop of the reference simulator: an ordered event stream, delayed orders waiting in a
    priority queue, and a market state that both of them change. */
module Engine {
  import opened FixedPoint

  datatype Event<E> = Event(time: int, payload: E)

  /** What a strategy asks for; a maker order is refused on the spot. */
  datatype Intent<O> = Intent(order: O, maker: bool, decision: int)

  datatype Pending<O> = Pending(arrival: int, counter: nat, order: O)

  /** How the market state reacts. Applying an event may raise, which ends the run. */
  datatype Kernel<!S, !E, !O> = Kernel(
    apply: (S, Event<E>) -> Option<S>,
    decide: (S, Event<E>) -> seq<Intent<O>>,
    execute: (S, Pending<O>) -> S)

  /** One step of a run: an event was applied, or an order executed after `heard` events. */
  datatype Step<O> = Heard | Executed(order: Pending<O>, heard: nat)

  predicate Less<O>(a: Pending<O>, b: Pending<O>)
  {
    a.arrival < b.arrival || (a.arrival == b.arrival && a.counter < b.counter)
  }

  ghost predicate Sorted<O>(orders: seq<Pending<O>>)
  {
    forall i, j :: 0 <= i < j < |orders| ==> Less(orders[i], orders[j])
  }

  ghost predicate Precede<O>(a: seq<Pending<O>>, b: seq<Pending<O>>)
  {
    forall x, y :: x in a && y in b ==> Less(x, y)
  }

  function Queue<O>(pending: seq<Pending<O>>, p: Pending<O>): seq<Pending<O>>
  {
    if pending == [] || Less(p, pending[0]) then [p] + pending
    else [pending[0]] + Queue(pending[1..], p)
  }

  ghost predicate InTimeOrder<E>(events: seq<Event<E>>)
  {
    forall i, j :: 0 <= i <= j < |events| ==> events[i].time <= events[j].time
  }

  /** Exactly the first `n` events are stamped at or before `time`. */
  ghost predicate SplitsAt<E>(events: seq<Event<E>>, n: nat, time: int)
  {
    n <= |events| && forall i :: 0 <= i < |events| ==> (i < n <==> events[i].time <= time)
  }

  function HeardIn<O>(trace: seq<Step<O>>): nat
  {
    if trace == [] then 0 else HeardIn(trace[..|trace| - 1]) + if trace[|trace| - 1].Heard? then 1 else 0
  }

  function OrdersIn<O>(trace: seq<Step<O>>): seq<Pending<O>>
  {
    if trace == [] then []
    else
      OrdersIn(trace[..|trace| - 1])
      + if trace[|trace| - 1].Executed? then [trace[|trace| - 1].order] else []
  }

  /** The state a trace leaves, if every step is possible: events are applied in stream order, and each
      executed order names the number of events applied before it. */
  ghost function StateAfter<S, E, O>(k: Kernel<S, E, O>, start: S, events: seq<Event<E>>, trace: seq<Step<O>>): Option<S>
  {
    if trace == [] then Some(start)
    else
      var init, last := trace[..|trace| - 1], trace[|trace| - 1];
      var before := StateAfter(k, start, events, init);
      if before.None? then None
      else
        match last
        case Heard => if HeardIn(init) < |events| then k.apply(before.value, events[HeardIn(init)]) else None
        case Executed(o, heard) => if heard == HeardIn(init) then Some(k.execute(before.value, o)) else None
  }

  /** No order was executed before an event it should have met, nor after one it should not. */
  ghost predicate Causal<E, O>(events: seq<Event<E>>, trace: seq<Step<O>>)
  {
    forall s <- trace :: s.Executed? ==> SplitsAt(events, s.heard, s.order.arrival)
  }

  lemma {:induction false} QueueSorted<O>(pending: seq<Pending<O>>, p: Pending<O>)
    requires Sorted(pending) && forall q <- pending :: q.counter < p.counter
    ensures Sorted(Queue(pending, p))
    ensures multiset(Queue(pending, p)) == multiset(pending) + multiset{p}
  {
    hide Less;
    if pending == [] || Less(p, pending[0]) {
      QueueFirst(pending, p);
    } else {
      var head, tail := pending[0], pending[1..];
      assert pending == [head] + tail && head in pending;
      QueueSorted(tail, p);
      QueueRest(pending, p, Queue(tail, p));
    }
  }

  lemma SortedCons<O>(head: Pending<O>, tail: seq<Pending<O>>)
    requires Sorted(tail) && forall q <- tail :: Less(head, q)
    ensures Sorted([head] + tail)
  {
  }

  lemma QueueFirst<O>(pending: seq<Pending<O>>, p: Pending<O>)
    requires Sorted(pending) && (pending != [] ==> Less(p, pending[0]))
    ensures Sorted([p] + pending)
  {
  }

  lemma QueueRest<O>(pending: seq<Pending<O>>, p: Pending<O>, queue: seq<Pending<O>>)
    requires pending != [] && Sorted(pending) && !Less(p, pending[0]) && pending[0].counter < p.counter
    requires Sorted(queue) && multiset(queue) == multiset(pending[1..]) + multiset{p}
    ensures Sorted([pending[0]] + queue)
  {
    var rest := pending[1..];
    forall q | q in queue ensures Less(pending[0], q) {
      assert q in multiset(queue);
      if q != p {
        assert q in rest;
        var i :| 0 <= i < |rest| && rest[i] == q;
        assert pending[i + 1] == q;
      }
    }
    SortedCons(pending[0], queue);
  }

  /** What the strategy has asked for so far, and the counters that stamp what it asks for next. */
  datatype Demand<O> = Demand(orders: seq<Pending<O>>, counter: nat, draws: nat)

  /** A taker order arrives a sampled latency after its decision; a maker order only uses up a number. */
  function Stamped<O>(d: Demand<O>, intent: Intent<O>, latency: nat -> nat): Demand<O>
  {
    if intent.maker then d.(counter := d.counter + 1)
    else
      var p := Pending(intent.decision + latency(d.draws), d.counter, intent.order);
      Demand(d.orders + [p], d.counter + 1, d.draws + 1)
  }

  function AllStamped<O>(d: Demand<O>, intents: seq<Intent<O>>, latency: nat -> nat): Demand<O>
  {
    if intents == [] then d
    else Stamped(AllStamped(d, intents[..|intents| - 1], latency), intents[|intents| - 1], latency)
  }

  /** Everything the strategy asked for along a trace, each time in the state its event left. */
  ghost function Asked<S, E, O>(k: Kernel<S, E, O>, start: S, events: seq<Event<E>>, latency: nat -> nat,
                                trace: seq<Step<O>>): Demand<O>
  {
    if trace == [] then Demand([], 0, 0)
    else
      var init := trace[..|trace| - 1];
      var before, left := Asked(k, start, events, latency, init), StateAfter(k, start, events, trace);
      if trace[|trace| - 1].Heard? && left.Some? then
        AllStamped(before, k.decide(left.value, events[HeardIn(init)]), latency)
      else before
  }

  // ---- what is asked for, and when it arrives -----------------------------------------------

  /** The intents that are not refused on the spot. */
  function Takers<O>(intents: seq<Intent<O>>): seq<Intent<O>>
  {
    if intents == [] then []
    else
      Takers(intents[..|intents| - 1]) + if intents[|intents| - 1].maker then [] else [intents[|intents| - 1]]
  }

  /** Each order is the next taker intent, and arrives the next latency after its decision; its number is that of
      the intent, makers counted. */
  ghost predicate ArriveAfter<O>(orders: seq<Pending<O>>, takers: seq<Intent<O>>, latency: nat -> nat, draws: nat)
  {
    && |orders| == |takers|
    && forall n :: 0 <= n < |orders| ==>
         orders[n].order == takers[n].order && orders[n].arrival == takers[n].decision + latency(draws + n)
  }

  /** What scheduling these intents adds to what was asked for. */
  ghost predicate AsksFor<O>(before: Demand<O>, intents: seq<Intent<O>>, after: Demand<O>, latency: nat -> nat)
  {
    && before.orders <= after.orders
    && ArriveAfter(after.orders[|before.orders|..], Takers(intents), latency, before.draws)
    && after.counter == before.counter + |intents| && after.draws == before.draws + |Takers(intents)|
    && (forall p <- after.orders[|before.orders|..] :: before.counter <= p.counter < after.counter)
  }

  lemma {:induction false} StampedAsksFor<O>(d: Demand<O>, intents: seq<Intent<O>>, latency: nat -> nat)
    ensures AsksFor(d, intents, AllStamped(d, intents, latency), latency)
  {
    hide AsksFor, Stamped;
    if intents == [] {
      NothingAsked(d, latency);
    } else {
      var init, last := intents[..|intents| - 1], intents[|intents| - 1];
      StampedAsksFor(d, init, latency);
      OneMoreAsked(d, init, AllStamped(d, init, latency), last, latency);
      assert init + [last] == intents;
    }
  }

  lemma NothingAsked<O>(d: Demand<O>, latency: nat -> nat)
    ensures AsksFor(d, [], d, latency)
  {
    assert d.orders[|d.orders|..] == [];
  }

  lemma OneMoreTaker<O>(intents: seq<Intent<O>>, last: Intent<O>)
    ensures Takers(intents + [last]) == Takers(intents) + if last.maker then [] else [last]
  {
    assert (intents + [last])[..|intents|] == intents;
  }

  lemma OneMoreAsked<O>(d: Demand<O>, intents: seq<Intent<O>>, mid: Demand<O>, last: Intent<O>, latency: nat -> nat)
    requires AsksFor(d, intents, mid, latency)
    ensures AsksFor(d, intents + [last], Stamped(mid, last, latency), latency)
  {
    hide Takers;
    OneMoreTaker(intents, last);
    if last.maker {
      assert Takers(intents) + [] == Takers(intents);
    } else {
      var n, after := |d.orders|, Stamped(mid, last, latency);
      assert after.orders[n..] == mid.orders[n..] + [after.orders[|mid.orders|]];
    }
  }

  /** All intents of a trace, in the order in which they were decided. */
  ghost function IntentsAlong<S, E, O>(k: Kernel<S, E, O>, start: S, events: seq<Event<E>>, trace: seq<Step<O>>): seq<Intent<O>>
  {
    if trace == [] then []
    else
      var init := trace[..|trace| - 1];
      var left := StateAfter(k, start, events, trace);
      IntentsAlong(k, start, events, init) +
      if trace[|trace| - 1].Heard? && left.Some? then k.decide(left.value, events[HeardIn(init)]) else []
  }

  lemma {:induction false} TakersConcat<O>(a: seq<Intent<O>>, b: seq<Intent<O>>)
    ensures Takers(a + b) == Takers(a) + Takers(b)
  {
    if b == [] {
      assert a + b == a;
    } else {
      assert (a + b)[..|a + b| - 1] == a + b[..|b| - 1];
      TakersConcat(a, b[..|b| - 1]);
    }
  }

  /** Over a whole trace, the orders asked for are its taker intents in order, and the n-th arrives the n-th latency
      after its decision. */
  lemma {:induction false} OrdersArriveAfter<S, E, O>(k: Kernel<S, E, O>, start: S, events: seq<Event<E>>,
                                                      latency: nat -> nat, trace: seq<Step<O>>)
    ensures var asked := Asked(k, start, events, latency, trace);
      && ArriveAfter(asked.orders, Takers(IntentsAlong(k, start, events, trace)), latency, 0)
      && asked.draws == |asked.orders| && asked.counter == |IntentsAlong(k, start, events, trace)|
  {
    hide AllStamped, Takers;
    if trace == [] {
      NoTakers<O>();
    } else {
      var init := trace[..|trace| - 1];
      OrdersArriveAfter(k, start, events, latency, init);
      var before, left := Asked(k, start, events, latency, init), StateAfter(k, start, events, trace);
      if trace[|trace| - 1].Heard? && left.Some? {
        var intents := k.decide(left.value, events[HeardIn(init)]);
        StampedAsksFor(before, intents, latency);
        TakersConcat(IntentsAlong(k, start, events, init), intents);
        LaterArriveAfter(before, intents, AllStamped(before, intents, latency), Takers(IntentsAlong(k, start, events, init)), latency);
      } else {
        assert IntentsAlong(k, start, events, init) + [] == IntentsAlong(k, start, events, init);
      }
    }
  }

  lemma NoTakers<O>()
    ensures Takers<O>([]) == []
  {
  }

  lemma LaterArriveAfter<O>(before: Demand<O>, intents: seq<Intent<O>>, after: Demand<O>, takers: seq<Intent<O>>, latency: nat -> nat)
    requires AsksFor(before, intents, after, latency) && ArriveAfter(before.orders, takers, latency, 0)
    requires before.draws == |before.orders|
    ensures ArriveAfter(after.orders, takers + Takers(intents), latency, 0) && after.draws == |after.orders|
  {
    hide Takers;
    var n0, all := |before.orders|, takers + Takers(intents);
    forall n | 0 <= n < |after.orders|
      ensures after.orders[n].order == all[n].order && after.orders[n].arrival == all[n].decision + latency(n)
    {
      if n < n0 {
        assert after.orders[n] == before.orders[n];
      } else {
        assert after.orders[n] == after.orders[n0..][n - n0] && before.draws + (n - n0) == n;
      }
    }
  }

  /** Every executed order had been asked for by then. */
  ghost predicate Backed<S, E, O>(k: Kernel<S, E, O>, start: S, events: seq<Event<E>>, latency: nat -> nat, trace: seq<Step<O>>)
  {
    forall i :: 0 <= i < |trace| && trace[i].Executed? ==>
      trace[i].order in Asked(k, start, events, latency, trace[..i]).orders
  }

  /** The queues of a run: everything executed precedes everything waiting, both in order, and together
      they are what was scheduled, each order as often as it was scheduled. */
  ghost predicate Queued<O>(executed: seq<Pending<O>>, pending: seq<Pending<O>>, counter: nat, asked: seq<Pending<O>>)
  {
    && Sorted(pending) && (forall p <- pending :: p.counter < counter)
    && Sorted(executed) && Precede(executed, pending)
    && multiset(executed) + multiset(pending) == multiset(asked)
  }

  /** The trace of a run: it explains the executed orders and the present state, event by event. */
  ghost predicate Traced<S, E, O>(k: Kernel<S, E, O>, start: S, events: seq<Event<E>>, n: nat,
                                  trace: seq<Step<O>>, executed: seq<Pending<O>>, state: S)
  {
    && executed == OrdersIn(trace) && n == HeardIn(trace) && n <= |events|
    && StateAfter(k, start, events, trace) == Some(state)
    && Causal(events, trace)
  }

  lemma ScheduleKeeps<O>(executed: seq<Pending<O>>, pending: seq<Pending<O>>, counter: nat,
                         asked: seq<Pending<O>>, p: Pending<O>)
    requires Queued(executed, pending, counter, asked) && p.counter == counter
    requires forall q <- executed :: q.arrival < p.arrival
    ensures Queued(executed, Queue(pending, p), counter + 1, asked + [p])
  {
    hide Sorted;
    QueueSorted(pending, p);
    forall y | y in Queue(pending, p) ensures (y == p || y in pending) && y.counter < counter + 1 {
      assert y in multiset(Queue(pending, p));
    }
  }

  lemma LateQueue<O>(earlier: seq<Pending<O>>, pending: seq<Pending<O>>, p: Pending<O>, time: int)
    requires forall q <- pending :: q in earlier || q.arrival >= time
    requires p.arrival >= time
    ensures forall q <- Queue(pending, p) :: q in earlier || q.arrival >= time
  {
  }

  lemma NoneStamped<O>(d: Demand<O>, intents: seq<Intent<O>>, latency: nat -> nat)
    ensures AllStamped(d, intents[..0], latency) == d
    ensures AllStamped(d, intents[..|intents|], latency) == AllStamped(d, intents, latency)
  {
    assert intents[..|intents|] == intents;
  }

  lemma StampedStep<O>(d: Demand<O>, intents: seq<Intent<O>>, i: nat, latency: nat -> nat)
    requires i < |intents|
    ensures AllStamped(d, intents[..i + 1], latency) == Stamped(AllStamped(d, intents[..i], latency), intents[i], latency)
  {
    assert intents[..i + 1][..i] == intents[..i];
  }

  lemma SkipKeeps<O>(executed: seq<Pending<O>>, pending: seq<Pending<O>>, counter: nat, asked: seq<Pending<O>>)
    requires Queued(executed, pending, counter, asked)
    ensures Queued(executed, pending, counter + 1, asked)
  {
  }

  lemma QueuedSorted<O>(executed: seq<Pending<O>>, pending: seq<Pending<O>>, counter: nat, asked: seq<Pending<O>>)
    requires Queued(executed, pending, counter, asked)
    ensures Sorted(executed) && Sorted(pending)
    ensures multiset(executed) + multiset(pending) == multiset(asked)
  {
  }

  lemma PopKeeps<O>(executed: seq<Pending<O>>, pending: seq<Pending<O>>, counter: nat, asked: seq<Pending<O>>)
    requires Queued(executed, pending, counter, asked) && pending != []
    ensures Queued(executed + [pending[0]], pending[1..], counter, asked)
  {
    hide Less;
    var p, rest := pending[0], pending[1..];
    assert pending == [p] + rest && p in pending;
    forall q | q in rest ensures Less(p, q) && q in pending {
      var i :| 0 <= i < |rest| && rest[i] == q;
      assert pending[i + 1] == q;
    }
    forall i | 0 <= i < |executed| ensures Less(executed[i], p) { assert executed[i] in executed; }
  }

  lemma ExecuteTraced<S, E, O>(k: Kernel<S, E, O>, start: S, events: seq<Event<E>>, n: nat,
                               trace: seq<Step<O>>, executed: seq<Pending<O>>, state: S, p: Pending<O>)
    requires Traced(k, start, events, n, trace, executed, state) && SplitsAt(events, n, p.arrival)
    ensures Traced(k, start, events, n, trace + [Executed(p, n)], executed + [p], k.execute(state, p))
  {
  }

  lemma HearTraced<S, E, O>(k: Kernel<S, E, O>, start: S, events: seq<Event<E>>, n: nat,
                            trace: seq<Step<O>>, executed: seq<Pending<O>>, state: S, next: S)
    requires Traced(k, start, events, n, trace, executed, state) && n < |events|
    requires k.apply(state, events[n]) == Some(next)
    ensures Traced(k, start, events, n + 1, trace + [Heard], executed, next)
  {
  }

  /** A run that heard every event and executed, in order and each as often as it was asked for, every order:
      no order too early, none too late, none before it was asked for. */
  ghost predicate Complete<S, E, O>(k: Kernel<S, E, O>, start: S, events: seq<Event<E>>, latency: nat -> nat, trace: seq<Step<O>>)
  {
    && StateAfter(k, start, events, trace).Some? && HeardIn(trace) == |events|
    && Causal(events, trace) && Sorted(OrdersIn(trace))
    && multiset(OrdersIn(trace)) == multiset(Asked(k, start, events, latency, trace).orders)
    && Backed(k, start, events, latency, trace)
  }

  /** Is an order with this arrival taken by a cutoff? */
  predicate Due(arrival: int, cutoff: int, inclusive: bool)
  {
    arrival < cutoff || (inclusive && arrival == cutoff)
  }

  lemma FirstNotDue<O>(pending: seq<Pending<O>>, cutoff: int, inclusive: bool)
    requires Sorted(pending) && (pending == [] || !Due(pending[0].arrival, cutoff, inclusive))
    ensures forall p <- pending :: !Due(p.arrival, cutoff, inclusive)
  {
  }

  lemma AskedExecute<S, E, O>(k: Kernel<S, E, O>, start: S, events: seq<Event<E>>, latency: nat -> nat,
                              trace: seq<Step<O>>, p: Pending<O>, n: nat)
    ensures Asked(k, start, events, latency, trace + [Executed(p, n)]) == Asked(k, start, events, latency, trace)
  {
  }

  lemma BackedStep<S, E, O>(k: Kernel<S, E, O>, start: S, events: seq<Event<E>>, latency: nat -> nat,
                            trace: seq<Step<O>>, s: Step<O>)
    requires Backed(k, start, events, latency, trace)
    requires s.Executed? ==> s.order in Asked(k, start, events, latency, trace).orders
    ensures Backed(k, start, events, latency, trace + [s])
  {
    hide Asked;
    var longer := trace + [s];
    forall i | 0 <= i < |longer| && longer[i].Executed?
      ensures longer[i].order in Asked(k, start, events, latency, longer[..i]).orders
    {
      assert longer[..i] == trace[..i];
      assert trace[..|trace|] == trace;
    }
  }

  lemma AskedHeard<S, E, O>(k: Kernel<S, E, O>, start: S, events: seq<Event<E>>, latency: nat -> nat, n: nat,
                            trace: seq<Step<O>>, executed: seq<Pending<O>>, state: S, next: S)
    requires Traced(k, start, events, n, trace, executed, state) && n < |events|
    requires k.apply(state, events[n]) == Some(next)
    ensures Asked(k, start, events, latency, trace + [Heard])
         == AllStamped(Asked(k, start, events, latency, trace), k.decide(next, events[n]), latency)
  {
  }

  lemma TracedHeard<S, E, O>(k: Kernel<S, E, O>, start: S, events: seq<Event<E>>, n: nat,
                             trace: seq<Step<O>>, executed: seq<Pending<O>>, state: S)
    requires Traced(k, start, events, n, trace, executed, state)
    ensures n == HeardIn(trace) <= |events|
  {
  }

  lemma FreshRun<S, E, O>(k: Kernel<S, E, O>, start: S, events: seq<Event<E>>, latency: nat -> nat)
    ensures Queued<O>([], [], 0, []) && Traced<S, E, O>(k, start, events, 0, [], [], start)
    ensures Asked<S, E, O>(k, start, events, latency, []) == Demand([], 0, 0)
    ensures Backed<S, E, O>(k, start, events, latency, [])
  {
  }

  /** Everything waiting, stamped after the last event and before the next one's time, meets the events so far. */
  lemma BetweenEvents<E>(events: seq<Event<E>>, n: nat, arrival: int)
    requires InTimeOrder(events) && n <= |events|
    requires n > 0 ==> events[n - 1].time <= arrival
    requires n < |events| ==> arrival < events[n].time
    ensures SplitsAt(events, n, arrival)
  {
  }

  lemma RunComplete<S, E, O>(k: Kernel<S, E, O>, start: S, events: seq<Event<E>>, latency: nat -> nat, trace: seq<Step<O>>,
                             executed: seq<Pending<O>>, state: S, counter: nat, asked: seq<Pending<O>>)
    requires Traced(k, start, events, |events|, trace, executed, state) && Queued(executed, [], counter, asked)
    requires asked == Asked(k, start, events, latency, trace).orders && Backed(k, start, events, latency, trace)
    ensures Complete(k, start, events, latency, trace) && HeardIn(trace) == |events|
  {
  }

  class BacktestEngine<!S(!new), !E(!new), !O(!new, ==)> {
    const kernel: Kernel<S, E, O>
    const start: S
    const latency: nat -> nat
    var state: S
    var pending: seq<Pending<O>>
    var counter: nat
    var draws: nat
    var executed: seq<Pending<O>>
    ghost var trace: seq<Step<O>>
    ghost var asked: seq<Pending<O>>

    constructor (kernel: Kernel<S, E, O>, start: S, latency: nat -> nat)
      ensures this.kernel == kernel && this.start == start && this.latency == latency
      ensures state == start && pending == [] && executed == [] && trace == [] && Asking() == Demand([], 0, 0)
    {
      this.kernel, this.start, this.latency := kernel, start, latency;
      state, pending, counter, draws, executed := start, [], 0, 0, [];
      trace, asked := [], [];
    }

    /** What holds at every moment of a run, with `n` events applied. */
    ghost predicate Inv(events: seq<Event<E>>, n: nat)
      reads this
    {
      && Queued(executed, pending, counter, asked)
      && Traced(kernel, start, events, n, trace, executed, state)
    }

    /** Between events, what was asked for is exactly what the trace calls for. */
    ghost predicate Settled(events: seq<Event<E>>)
      reads this
    {
      && Asking() == Asked(kernel, start, events, latency, trace)
      && Backed(kernel, start, events, latency, trace)
    }

    ghost function Asking(): Demand<O>
      reads this
    {
      Demand(asked, counter, draws)
    }

    /** Orders arrive at a sampled latency after the decision. */
    method Schedule(intents: seq<Intent<O>>, time: int, ghost events: seq<Event<E>>, ghost n: nat)
      requires Inv(events, n) && forall i <- intents :: i.decision >= time
      requires forall p <- executed :: p.arrival < time
      modifies this`pending, this`counter, this`draws, this`asked
      ensures Inv(events, n) && Asking() == AllStamped(old(Asking()), intents, latency)
      ensures AsksFor(old(Asking()), intents, Asking(), latency)
      ensures forall p <- pending :: p in old(pending) || p.arrival >= time
    {
      StampedAsksFor(Asking(), intents, latency);
      hide Queued, Traced, Sorted, Precede, AllStamped, AsksFor;
      NoneStamped(old(Asking()), intents, latency);
      for i := 0 to |intents|
        invariant Inv(events, n) && Asking() == AllStamped(old(Asking()), intents[..i], latency)
        invariant forall p <- pending :: p in old(pending) || p.arrival >= time
      {
        assert intents[i] in intents;
        StampedStep(old(Asking()), intents, i, latency);
        if intents[i].maker {
          SkipKeeps(executed, pending, counter, asked);
          counter := counter + 1;
          continue;
        }
        var p := Pending(intents[i].decision + latency(draws), counter, intents[i].order);
        ScheduleKeeps(executed, pending, counter, asked, p);
        LateQueue(old(pending), pending, p, time);
        counter, draws := counter + 1, draws + 1;
        asked := asked + [p];
        pending := Queue(pending, p);
      }
    }

    /** Executes the pending orders that arrive before the cutoff, or at it when inclusive. */
    method ExecutePending(cutoff: int, inclusive: bool, ghost events: seq<Event<E>>, ghost n: nat)
      requires Inv(events, n) && Settled(events)
      requires forall p <- pending :: Due(p.arrival, cutoff, inclusive) ==> SplitsAt(events, n, p.arrival)
      modifies this`pending, this`state, this`executed, this`trace
      ensures Inv(events, n) && Settled(events)
      ensures forall p <- pending :: p in old(pending) && !Due(p.arrival, cutoff, inclusive)
      ensures forall p <- executed :: p in old(executed) || Due(p.arrival, cutoff, inclusive)
      ensures |pending| < |old(pending)| || pending == old(pending)
    {
      hide Queued, Traced, Due, SplitsAt, Asked, Backed;
      while pending != [] && Due(pending[0].arrival, cutoff, inclusive)
        invariant Inv(events, n) && Settled(events)
        invariant forall p <- pending :: p in old(pending)
        invariant forall p <- executed :: p in old(executed) || Due(p.arrival, cutoff, inclusive)
        invariant |pending| < |old(pending)| || pending == old(pending)
        decreases |pending|
      {
        var p := pending[0];
        assert p in old(pending) && pending == [p] + pending[1..] by { assert p in pending; }
        ExecuteTraced(kernel, start, events, n, trace, executed, state, p);
        PopKeeps(executed, pending, counter, asked);
        AskedExecute(kernel, start, events, latency, trace, p, n);
        assert p in asked by { QueuedSorted(executed, pending, counter, asked); assert p in multiset(asked); }
        BackedStep(kernel, start, events, latency, trace, Executed(p, n));
        trace := trace + [Executed(p, n)];
        state := kernel.execute(state, p);
        executed, pending := executed + [p], pending[1..];
      }
      assert Sorted(pending) by { QueuedSorted(executed, pending, counter, asked); }
      FirstNotDue(pending, cutoff, inclusive);
    }

    /** The whole run over an ordered event stream. `aborted` reports an event that could not be applied. */
    method Run(events: seq<Event<E>>) returns (aborted: bool)
      requires state == start && pending == [] && executed == [] && trace == [] && Asking() == Demand([], 0, 0)
      requires InTimeOrder(events)
      requires forall s, e, i :: i in kernel.decide(s, e) ==> i.decision >= e.time
      modifies this
      ensures Inv(events, HeardIn(trace))
      ensures Settled(events)
      ensures !aborted ==> pending == [] && Complete(kernel, start, events, latency, trace)
      ensures aborted ==> HeardIn(trace) < |events| && kernel.apply(state, events[HeardIn(trace)]).None?
    {
      hide Queued, Traced, Asked, SplitsAt, AllStamped, Backed;
      FreshRun(kernel, start, events, latency);
      aborted := false;
      var index := 0;
      while index < |events|
        invariant 0 <= index <= |events| && Inv(events, index)
        invariant Settled(events)
        invariant index > 0 ==> Passed(events[index - 1].time)
        invariant index == 0 ==> pending == [] && executed == []
        invariant 0 < index < |events| ==> events[index - 1].time < events[index].time
      {
        var time := events[index].time;
        forall p | p in pending && Due(p.arrival, time, false) ensures SplitsAt(events, index, p.arrival) {
          BetweenEvents(events, index, p.arrival);
        }
        ExecutePending(time, false, events, index);
        var next := index;
        while next < |events| && events[next].time == time
          invariant index <= next <= |events|
          invariant forall j :: index <= j < next ==> events[j].time == time
        {
          next := next + 1;
        }
        aborted := ApplyGroup(events, index, next, time);
        if aborted { return; }
        forall p | p in pending && Due(p.arrival, time, true) ensures SplitsAt(events, next, p.arrival) {
          BetweenEvents(events, next, p.arrival);
        }
        ExecutePending(time, true, events, next);
        index := next;
      }
      forall p | p in pending ensures SplitsAt(events, |events|, p.arrival) {
        BetweenEvents(events, |events|, p.arrival);
      }
      TracedHeard(kernel, start, events, |events|, trace, executed, state);
      Drain(events);
      RunComplete(kernel, start, events, latency, trace, executed, state, counter, asked);
    }

    /** Nothing waits at or before the given time, and nothing after it was executed. */
    ghost predicate Passed(time: int)
      reads this
    {
      && (forall p <- pending :: p.arrival > time)
      && (forall p <- executed :: p.arrival <= time)
    }

    /** Applies the events that share a timestamp, scheduling what the strategy decides after each. */
    method ApplyGroup(events: seq<Event<E>>, begin: nat, next: nat, time: int) returns (aborted: bool)
      requires begin < next <= |events| && forall j :: begin <= j < next ==> events[j].time == time
      requires Inv(events, begin) && Settled(events)
      requires forall s, e, i :: i in kernel.decide(s, e) ==> i.decision >= e.time
      requires (forall p <- pending :: p.arrival >= time) && (forall p <- executed :: p.arrival < time)
      modifies this
      ensures Inv(events, HeardIn(trace)) && Settled(events)
      ensures (forall p <- pending :: p.arrival >= time) && (forall p <- executed :: p.arrival < time)
      ensures !aborted ==> HeardIn(trace) == next
      ensures aborted ==> HeardIn(trace) < |events| && kernel.apply(state, events[HeardIn(trace)]).None?
    {
      hide Queued, Traced, AllStamped, Asked, Backed;
      aborted := false;
      var n := begin;
      while n < next
        invariant begin <= n <= next && Inv(events, n)
        invariant Settled(events)
        invariant (forall p <- pending :: p.arrival >= time) && (forall p <- executed :: p.arrival < time)
      {
        TracedHeard(kernel, start, events, n, trace, executed, state);
        var left := kernel.apply(state, events[n]);
        if left.None? { return true; }
        HearTraced(kernel, start, events, n, trace, executed, state, left.value);
        AskedHeard(kernel, start, events, latency, n, trace, executed, state, left.value);
        BackedStep(kernel, start, events, latency, trace, Heard);
        trace := trace + [Heard];
        state := left.value;
        Schedule(kernel.decide(left.value, events[n]), time, events, n + 1);
        n := n + 1;
      }
      TracedHeard(kernel, start, events, n, trace, executed, state);
    }

    /** Once the stream is over, the remaining orders execute in order of arrival. */
    method Drain(ghost events: seq<Event<E>>)
      requires Inv(events, |events|) && Settled(events)
      requires forall p <- pending :: SplitsAt(events, |events|, p.arrival)
      modifies this`pending, this`state, this`executed, this`trace
      ensures Inv(events, |events|) && Settled(events)
      ensures pending == []
    {
      hide Queued, Traced, SplitsAt, Asked, Backed;
      while pending != []
        invariant Inv(events, |events|) && Settled(events)
        invariant forall p <- pending :: SplitsAt(events, |events|, p.arrival)
        decreases |pending|
      {
        var arrival := pending[0].arrival;
        ExecutePending(arrival, true, events, |events|);
      }
    }
  }
}
