/** What a run cannot know: two event streams that agree up to some time lead to the same orders, at the
    same moments and in the same states, up to that time, whatever comes later. */
module NoLookAhead {
  import opened FixedPoint
  import opened Engine

  /** The streams share their first `m` events, and those are exactly the ones stamped at or before `time`. */
  ghost predicate AgreeUpTo<E>(a: seq<Event<E>>, b: seq<Event<E>>, m: nat, time: int)
  {
    SplitsAt(a, m, time) && SplitsAt(b, m, time) && a[..m] == b[..m]
  }

  /** A step that belongs to the shared past. */
  predicate Early<O>(s: Step<O>, heardBefore: nat, m: nat, time: int)
  {
    match s
    case Heard => heardBefore < m
    case Executed(o, _) => o.arrival <= time
  }

  lemma {:induction false} HeardPrefix<O>(trace: seq<Step<O>>, i: nat)
    requires i <= |trace|
    ensures HeardIn(trace[..i]) <= HeardIn(trace)
    ensures i < |trace| && trace[i].Heard? ==> HeardIn(trace[..i]) < HeardIn(trace)
    decreases |trace|
  {
    if i == |trace| {
      assert trace[..i] == trace;
    } else {
      var init := trace[..|trace| - 1];
      assert init[..i] == trace[..i];
      HeardPrefix(init, i);
    }
  }

  lemma {:induction false} OrderAt<O>(trace: seq<Step<O>>, i: nat)
    requires i < |trace| && trace[i].Executed?
    ensures |OrdersIn(trace[..i])| < |OrdersIn(trace)| && OrdersIn(trace)[|OrdersIn(trace[..i])|] == trace[i].order
    decreases |trace|
  {
    var init := trace[..|trace| - 1];
    assert init[..i] == trace[..i];
    if i < |trace| - 1 { OrderAt(init, i); }
  }

  lemma {:induction false} OrdersPrefix<O>(trace: seq<Step<O>>, i: nat)
    requires i <= |trace|
    ensures |OrdersIn(trace[..i])| <= |OrdersIn(trace)|
    ensures OrdersIn(trace[..i]) == OrdersIn(trace)[..|OrdersIn(trace[..i])|]
    decreases |trace|
  {
    if i == |trace| {
      assert trace[..i] == trace;
    } else {
      var init := trace[..|trace| - 1];
      assert init[..i] == trace[..i];
      OrdersPrefix(init, i);
    }
  }

  /** Later steps execute later orders. */
  lemma ExecutedInOrder<O>(trace: seq<Step<O>>, i: nat, j: nat)
    requires i < j < |trace| && trace[i].Executed? && trace[j].Executed? && Sorted(OrdersIn(trace))
    ensures Less(trace[i].order, trace[j].order)
  {
    hide Less;
    OrderAt(trace, i);
    OrderAt(trace, j);
    assert trace[..j][..i] == trace[..i];
    OrderAt(trace[..j], i);
  }

  lemma {:induction false} FindOrder<O>(trace: seq<Step<O>>, p: Pending<O>) returns (i: nat)
    requires p in OrdersIn(trace)
    ensures i < |trace| && trace[i].Executed? && trace[i].order == p
  {
    var init, last := trace[..|trace| - 1], trace[|trace| - 1];
    if last.Executed? && last.order == p {
      i := |trace| - 1;
    } else {
      i := FindOrder(init, p);
    }
  }

  lemma {:induction false} PrefixPossible<S, E, O>(k: Kernel<S, E, O>, start: S, events: seq<Event<E>>, trace: seq<Step<O>>, i: nat)
    requires StateAfter(k, start, events, trace).Some? && i <= |trace|
    ensures StateAfter(k, start, events, trace[..i]).Some?
    ensures i < |trace| && trace[i].Executed? ==> trace[i].heard == HeardIn(trace[..i])
    decreases |trace|
  {
    if i == |trace| {
      assert trace[..i] == trace;
    } else {
      var init := trace[..|trace| - 1];
      assert init[..i] == trace[..i];
      PrefixPossible(k, start, events, init, i);
    }
  }

  lemma {:induction false} AskedStamped<O>(d: Demand<O>, intents: seq<Intent<O>>, latency: nat -> nat)
    ensures d.orders <= AllStamped(d, intents, latency).orders
  {
    if intents != [] { AskedStamped(d, intents[..|intents| - 1], latency); }
  }

  lemma {:induction false} AskedPrefix<S, E, O>(k: Kernel<S, E, O>, start: S, events: seq<Event<E>>, latency: nat -> nat,
                                                trace: seq<Step<O>>, i: nat)
    requires StateAfter(k, start, events, trace).Some? && i <= |trace|
    ensures Asked(k, start, events, latency, trace[..i]).orders <= Asked(k, start, events, latency, trace).orders
    decreases |trace|
  {
    hide AllStamped;
    if i == |trace| {
      assert trace[..i] == trace;
    } else {
      var init := trace[..|trace| - 1];
      assert init[..i] == trace[..i];
      AskedPrefix(k, start, events, latency, init, i);
      if trace[|trace| - 1].Heard? {
        var intents := k.decide(StateAfter(k, start, events, trace).value, events[HeardIn(init)]);
        AskedStamped(Asked(k, start, events, latency, init), intents, latency);
      }
    }
  }

  /** What a prefix does depends only on the events it hears. */
  lemma {:induction false} HearsOnlyThePast<S, E, O>(k: Kernel<S, E, O>, start: S, a: seq<Event<E>>, b: seq<Event<E>>,
                                                     latency: nat -> nat, trace: seq<Step<O>>, m: nat)
    requires m <= |a| && m <= |b| && a[..m] == b[..m] && HeardIn(trace) <= m
    ensures StateAfter(k, start, a, trace) == StateAfter(k, start, b, trace)
    ensures Asked(k, start, a, latency, trace) == Asked(k, start, b, latency, trace)
  {
    hide AllStamped;
    if trace != [] {
      var init := trace[..|trace| - 1];
      HearsOnlyThePast(k, start, a, b, latency, init, m);
      if trace[|trace| - 1].Heard? {
        assert a[HeardIn(init)] == a[..m][HeardIn(init)] == b[HeardIn(init)];
      }
    }
  }

  /** In a complete run, what was asked for by step `j` and not executed by then executes later. */
  lemma StillToCome<S, E, O>(k: Kernel<S, E, O>, start: S, events: seq<Event<E>>, latency: nat -> nat,
                             trace: seq<Step<O>>, j: nat, p: Pending<O>) returns (i: nat)
    requires Complete(k, start, events, latency, trace) && j <= |trace|
    requires p in Asked(k, start, events, latency, trace[..j]).orders && p !in OrdersIn(trace[..j])
    ensures j <= i < |trace| && trace[i].Executed? && trace[i].order == p
    ensures HeardIn(trace[..j]) <= trace[i].heard && SplitsAt(events, trace[i].heard, p.arrival)
    ensures trace[j].Heard? ==> HeardIn(trace[..j]) < trace[i].heard
  {
    hide Sorted, Backed, Asked, StateAfter, SplitsAt;
    var asked := Asked(k, start, events, latency, trace).orders;
    AskedPrefix(k, start, events, latency, trace, j);
    assert p in asked;
    assert p in multiset(OrdersIn(trace));
    i := FindOrder(trace, p);
    if i < j {
      assert trace[..j][..i] == trace[..i];
      OrderAt(trace[..j], i);
      assert false;
    }
    assert trace[i] in trace;
    PrefixPossible(k, start, events, trace, i);
    assert trace[..i][..j] == trace[..j];
    HeardPrefix(trace[..i], j);
  }

  lemma NotBefore<O>(trace: seq<Step<O>>, j: nat)
    requires j < |trace| && trace[j].Executed? && Sorted(OrdersIn(trace))
    ensures trace[j].order !in OrdersIn(trace[..j])
  {
    if trace[j].order in OrdersIn(trace[..j]) {
      var i := FindOrder(trace[..j], trace[j].order);
      ExecutedInOrder(trace, i, j);
    }
  }

  /** The order a step executes had been asked for, had not been executed, and meets the right events. */
  lemma ExecutedIsDue<S, E, O>(k: Kernel<S, E, O>, start: S, events: seq<Event<E>>, latency: nat -> nat,
                               trace: seq<Step<O>>, j: nat)
    requires Complete(k, start, events, latency, trace) && j < |trace| && trace[j].Executed?
    ensures trace[j].order in Asked(k, start, events, latency, trace[..j]).orders
    ensures trace[j].order !in OrdersIn(trace[..j]) && trace[j].heard == HeardIn(trace[..j])
    ensures SplitsAt(events, trace[j].heard, trace[j].order.arrival)
  {
    hide Asked, StateAfter, SplitsAt, Sorted;
    NotBefore(trace, j);
    PrefixPossible(k, start, events, trace, j);
    assert trace[j] in trace;
  }

  lemma SameSplit<E>(a: seq<Event<E>>, b: seq<Event<E>>, m: nat, time: int, n: nat, n': nat, arrival: int)
    requires AgreeUpTo(a, b, m, time) && arrival <= time && SplitsAt(a, n, arrival) && SplitsAt(b, n', arrival)
    ensures n == n'
  {
    forall i | 0 <= i < m ensures a[i] == b[i] {
      assert a[i] == a[..m][i] == b[..m][i] == b[i];
    }
    assert n < n' ==> b[n].time <= arrival && n < m;
    assert n' < n ==> a[n'].time <= arrival && n' < m;
  }

  lemma NotOver<O>(trace: seq<Step<O>>, j: nat)
    requires j <= |trace| && HeardIn(trace[..j]) < HeardIn(trace)
    ensures j < |trace|
  {
    assert trace[..|trace|] == trace;
  }

  lemma SameNextEvent<S, E, O>(k: Kernel<S, E, O>, start: S, a: seq<Event<E>>, b: seq<Event<E>>, latency: nat -> nat,
                               ta: seq<Step<O>>, tb: seq<Step<O>>, j: nat, m: nat, time: int)
    requires Complete(k, start, a, latency, ta) && Complete(k, start, b, latency, tb) && AgreeUpTo(a, b, m, time)
    requires j < |ta| && j <= |tb| && ta[..j] == tb[..j] && ta[j].Heard? && HeardIn(ta[..j]) < m
    ensures j < |tb| && tb[j].Heard?
  {
    hide Asked, StateAfter, Backed, Causal, Sorted;
    var h := HeardIn(ta[..j]);
    HearsOnlyThePast(k, start, a, b, latency, ta[..j], m);
    NotOver(tb, j);
    if tb[j].Executed? {
      ExecutedIsDue(k, start, b, latency, tb, j);
      var i := StillToCome(k, start, a, latency, ta, j, tb[j].order);
      assert tb[j].order.arrival < b[h].time <= time;
      SameSplit(a, b, m, time, ta[i].heard, h, tb[j].order.arrival);
    }
  }

  lemma SameNextOrder<S, E, O>(k: Kernel<S, E, O>, start: S, a: seq<Event<E>>, b: seq<Event<E>>, latency: nat -> nat,
                               ta: seq<Step<O>>, tb: seq<Step<O>>, j: nat, m: nat, time: int)
    requires Complete(k, start, a, latency, ta) && Complete(k, start, b, latency, tb) && AgreeUpTo(a, b, m, time)
    requires j < |ta| && j <= |tb| && ta[..j] == tb[..j] && HeardIn(ta[..j]) <= m
    requires ta[j].Executed? && ta[j].order.arrival <= time
    ensures j < |tb| && tb[j] == ta[j]
  {
    hide Asked, StateAfter, Backed, Causal, Sorted, Less;
    var h, p := HeardIn(ta[..j]), ta[j].order;
    HearsOnlyThePast(k, start, a, b, latency, ta[..j], m);
    ExecutedIsDue(k, start, a, latency, ta, j);
    var i := StillToCome(k, start, b, latency, tb, j, p);
    SameSplit(a, b, m, time, h, tb[i].heard, p.arrival);
    assert tb[j].Executed?;
    ExecutedIsDue(k, start, b, latency, tb, j);
    var q := tb[j].order;
    if q != p {
      ExecutedInOrder(tb, j, i);
      var i' := StillToCome(k, start, a, latency, ta, j, q);
      ExecutedInOrder(ta, j, i');
      Asymmetric(p, q);
    }
  }

  lemma Asymmetric<O>(p: Pending<O>, q: Pending<O>)
    ensures !(Less(p, q) && Less(q, p))
  {
  }

  /** Two complete runs that agree so far take the same next early step. */
  lemma SameNextStep<S, E, O>(k: Kernel<S, E, O>, start: S, a: seq<Event<E>>, b: seq<Event<E>>, latency: nat -> nat,
                              ta: seq<Step<O>>, tb: seq<Step<O>>, j: nat, m: nat, time: int)
    requires Complete(k, start, a, latency, ta) && Complete(k, start, b, latency, tb) && AgreeUpTo(a, b, m, time)
    requires j < |ta| && j <= |tb| && ta[..j] == tb[..j] && HeardIn(ta[..j]) <= m
    requires Early(ta[j], HeardIn(ta[..j]), m, time)
    ensures j < |tb| && tb[j] == ta[j]
  {
    hide Complete, SplitsAt;
    if ta[j].Heard? {
      SameNextEvent(k, start, a, b, latency, ta, tb, j, m, time);
    } else {
      SameNextOrder(k, start, a, b, latency, ta, tb, j, m, time);
    }
  }

  lemma HeardStep<O>(trace: seq<Step<O>>, i: nat, m: nat, time: int)
    requires i < |trace| && HeardIn(trace[..i]) <= m && Early(trace[i], HeardIn(trace[..i]), m, time)
    ensures HeardIn(trace[..i + 1]) <= m
  {
    assert trace[..i + 1][..i] == trace[..i];
  }

  /** After the first step beyond the shared past, no order arrives within it. */
  lemma LaterIsLate<S, E, O>(k: Kernel<S, E, O>, start: S, events: seq<Event<E>>, latency: nat -> nat,
                             trace: seq<Step<O>>, j: nat, i: nat, m: nat, time: int)
    requires Complete(k, start, events, latency, trace) && SplitsAt(events, m, time)
    requires j <= i < |trace| && trace[i].Executed?
    requires !Early(trace[j], HeardIn(trace[..j]), m, time)
    ensures trace[i].order.arrival > time
  {
    hide Asked, StateAfter, Backed;
    ExecutedIsDue(k, start, events, latency, trace, i);
    if trace[j].Heard? {
      assert trace[..i][..j] == trace[..j] && trace[..i][j] == trace[j];
      HeardPrefix(trace[..i], j);
      assert events[m].time > time;
    } else if j < i {
      ExecutedInOrder(trace, j, i);
    }
  }

  lemma {:induction false} ShareUpTo<S, E, O>(k: Kernel<S, E, O>, start: S, a: seq<Event<E>>, b: seq<Event<E>>,
                                              latency: nat -> nat, ta: seq<Step<O>>, tb: seq<Step<O>>,
                                              begin: nat, m: nat, time: int) returns (j: nat)
    requires Complete(k, start, a, latency, ta) && Complete(k, start, b, latency, tb) && AgreeUpTo(a, b, m, time)
    requires begin <= |ta| && begin <= |tb| && ta[..begin] == tb[..begin] && HeardIn(ta[..begin]) <= m
    ensures j <= |ta| && j <= |tb| && ta[..j] == tb[..j] && HeardIn(ta[..j]) <= m
    ensures j < |ta| ==> !Early(ta[j], HeardIn(ta[..j]), m, time)
    ensures j < |tb| ==> !Early(tb[j], HeardIn(tb[..j]), m, time)
    decreases |ta| - begin
  {
    hide Complete, Early, SplitsAt;
    j := begin;
    if j < |ta| && Early(ta[j], HeardIn(ta[..j]), m, time) {
      SameNextStep(k, start, a, b, latency, ta, tb, j, m, time);
      HeardStep(ta, j, m, time);
      assert ta[..j + 1] == ta[..j] + [ta[j]] == tb[..j + 1];
      j := ShareUpTo(k, start, a, b, latency, ta, tb, j + 1, m, time);
    } else if j < |tb| && Early(tb[j], HeardIn(tb[..j]), m, time) {
      SameNextStep(k, start, b, a, latency, tb, ta, j, m, time);
    }
  }

  /** A run that has heard fewer than `m` events has not taken all its early steps. */
  lemma HearsAll<S, E, O>(k: Kernel<S, E, O>, start: S, events: seq<Event<E>>, latency: nat -> nat,
                          trace: seq<Step<O>>, j: nat, m: nat, time: int)
    requires Complete(k, start, events, latency, trace) && SplitsAt(events, m, time) && j <= |trace|
    requires HeardIn(trace[..j]) <= m && (j < |trace| ==> !Early(trace[j], HeardIn(trace[..j]), m, time))
    ensures HeardIn(trace[..j]) == m
  {
    hide Asked, StateAfter, Backed;
    if HeardIn(trace[..j]) < m {
      NotOver(trace, j);
      assert events[HeardIn(trace[..j])].time <= time;
      ExecutedIsDue(k, start, events, latency, trace, j);
    }
  }

  /** No foreknowledge: two complete runs over streams that agree up to `time` share everything up to `time`.
      They take the same steps, hear all the events they share, ask for the same orders and reach the same
      state; and whatever either executes afterwards arrives later. */
  lemma NoForeknowledge<S, E, O>(k: Kernel<S, E, O>, start: S, a: seq<Event<E>>, b: seq<Event<E>>, latency: nat -> nat,
                                 ta: seq<Step<O>>, tb: seq<Step<O>>, m: nat, time: int) returns (j: nat)
    requires Complete(k, start, a, latency, ta) && Complete(k, start, b, latency, tb) && AgreeUpTo(a, b, m, time)
    ensures j <= |ta| && j <= |tb| && ta[..j] == tb[..j]
    ensures HeardIn(ta[..j]) == m
    ensures StateAfter(k, start, a, ta[..j]) == StateAfter(k, start, b, tb[..j])
    ensures Asked(k, start, a, latency, ta[..j]) == Asked(k, start, b, latency, tb[..j])
    ensures forall i :: j <= i < |ta| && ta[i].Executed? ==> ta[i].order.arrival > time
    ensures forall i :: j <= i < |tb| && tb[i].Executed? ==> tb[i].order.arrival > time
  {
    hide Complete, Early, StateAfter;
    assert ta[..0] == tb[..0] == [];
    j := ShareUpTo(k, start, a, b, latency, ta, tb, 0, m, time);
    HearsOnlyThePast(k, start, a, b, latency, ta[..j], m);
    HearsAll(k, start, a, latency, ta, j, m, time);
    forall i | j <= i < |ta| && ta[i].Executed? ensures ta[i].order.arrival > time {
      LaterIsLate(k, start, a, latency, ta, j, i, m, time);
    }
    forall i | j <= i < |tb| && tb[i].Executed? ensures tb[i].order.arrival > time {
      LaterIsLate(k, start, b, latency, tb, j, i, m, time);
    }
  }

  /** In a complete run an executed order is a taker intent decided before it, and arrives one of the latencies
      after that decision. If every latency is at least `least`, no order executes before an event stamped less
      than that after its decision. */
  lemma NoneBeforeItsLatency<S, E, O>(k: Kernel<S, E, O>, start: S, events: seq<Event<E>>, latency: nat -> nat,
                                      trace: seq<Step<O>>, i: nat, least: nat) returns (n: nat)
    requires Complete(k, start, events, latency, trace) && i < |trace| && trace[i].Executed?
    requires forall m: nat :: latency(m) >= least
    ensures var takers := Takers(IntentsAlong(k, start, events, trace[..i]));
      && n < |takers| && trace[i].order.order == takers[n].order
      && trace[i].order.arrival == takers[n].decision + latency(n)
      && trace[i].heard == HeardIn(trace[..i])
      && forall e :: 0 <= e < |events| && events[e].time < takers[n].decision + least ==> e < trace[i].heard
  {
    hide Asked, StateAfter, Takers, IntentsAlong, Sorted, Backed;
    ExecutedIsDue(k, start, events, latency, trace, i);
    OrdersArriveAfter(k, start, events, latency, trace[..i]);
    var orders := Asked(k, start, events, latency, trace[..i]).orders;
    n :| 0 <= n < |orders| && orders[n] == trace[i].order;
  }
}
