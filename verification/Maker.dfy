/** Queue position of a simulated resting order, under three assumptions about who cancels. */
module Maker {
  import opened FixedPoint

  datatype QueueModel = Optimistic | Conservative | Proportional

  datatype Queue = Queue(ahead: int, size: int, filled: int)

  /** What a resting order observes at its price: an aggressive trade, or a decrease of the displayed
      size that was displayed as `total`. */
  datatype Observation = Trade(size: nat) | Decrease(size: nat, total: int)

  function Traded(q: Queue, size: nat): Queue
  {
    var advance := Min(q.ahead, size);
    q.(ahead := q.ahead - advance, filled := q.filled + Min(size - advance, q.size - q.filled))
  }

  function Decreased(m: QueueModel, q: Queue, size: nat, total: int): Queue
  {
    match m
    case Conservative => q
    case Optimistic => q.(ahead := Max(0, q.ahead - size))
    case Proportional => if total <= 0 then q else q.(ahead := Max(0, q.ahead - q.ahead * size / total))
  }

  function Observed(m: QueueModel, q: Queue, o: Observation): Queue
  {
    match o
    case Trade(size) => Traded(q, size)
    case Decrease(size, total) => Decreased(m, q, size, total)
  }

  function AfterAll(m: QueueModel, q: Queue, seen: seq<Observation>): Queue
  {
    if seen == [] then q else Observed(m, AfterAll(m, q, seen[..|seen| - 1]), seen[|seen| - 1])
  }

  class MakerQueueState {
    const model: QueueModel
    var displayedAhead: int
    const simulatedSize: int
    var filled: int

    constructor (ahead: int, size: int, model: QueueModel)
      ensures this.model == model && State() == Queue(ahead, size, 0)
    {
      this.model, displayedAhead, simulatedSize, filled := model, ahead, size, 0;
    }

    function State(): Queue
      reads this
    {
      Queue(displayedAhead, simulatedSize, filled)
    }

    method ObserveTrade(size: nat) returns (fill: int)
      modifies this
      ensures State() == Traded(old(State()), size) && fill == filled - old(filled)
    {
      var advance := Min(displayedAhead, size);
      displayedAhead := displayedAhead - advance;
      var residual := size - advance;
      fill := Min(residual, simulatedSize - filled);
      filled := filled + fill;
    }

    method ObserveDisplayedDecrease(decrease: nat, displayedTotal: int)
      modifies this
      ensures State() == Decreased(model, old(State()), decrease, displayedTotal)
    {
      if model.Conservative? {
        return;
      }
      if model.Optimistic? {
        displayedAhead := Max(0, displayedAhead - decrease);
        return;
      }
      if displayedTotal <= 0 {
        return;
      }
      var share := displayedAhead * decrease / displayedTotal;
      displayedAhead := Max(0, displayedAhead - share);
    }
  }

  /** A resting order never fills beyond its size, and fills nothing while anyone is ahead of it. */
  ghost predicate Sound(q: Queue)
  {
    0 <= q.ahead && 0 <= q.filled <= q.size
  }

  lemma ShareWithin(ahead: int, size: nat, total: int)
    requires 0 <= ahead <= total && total > 0
    ensures 0 <= ahead * size / total <= size
  {
    MulLe(ahead, total, size);
    DivLe(ahead * size, total * size, total);
    DivBracket(total * size, total, size);
  }

  lemma SoundStep(m: QueueModel, q: Queue, o: Observation)
    requires Sound(q)
    ensures Sound(Observed(m, q, o))
    ensures Observed(m, q, o).size == q.size && Observed(m, q, o).filled >= q.filled
  {
  }

  lemma {:induction false} SoundRun(m: QueueModel, q: Queue, seen: seq<Observation>)
    requires Sound(q)
    ensures Sound(AfterAll(m, q, seen)) && AfterAll(m, q, seen).size == q.size
  {
    if seen != [] {
      SoundRun(m, q, seen[..|seen| - 1]);
      SoundStep(m, AfterAll(m, q, seen[..|seen| - 1]), seen[|seen| - 1]);
    }
  }

  /** The proportional share of a decrease does not exceed the decrease, or the decrease clears the queue. */
  predicate Fair(p: Queue, size: nat, total: int)
  {
    total <= 0 || p.ahead * size / total <= size || p.ahead <= size
  }

  /** Every decrease is fair to the proportional queue it meets. */
  ghost predicate FairRun(q: Queue, seen: seq<Observation>)
  {
    forall i :: 0 <= i < |seen| && seen[i].Decrease? ==>
      Fair(AfterAll(Proportional, q, seen[..i]), seen[i].size, seen[i].total)
  }

  /** A queue that was on display is treated fairly. */
  lemma DisplayedIsFair(p: Queue, size: nat, total: int)
    requires Sound(p) && p.ahead <= total
    ensures Fair(p, size, total)
  {
    if total > 0 { ShareWithin(p.ahead, size, total); }
  }

  /** `c` is at least as far back in the queue as `p`, and has filled no more. */
  predicate Behind(c: Queue, p: Queue)
  {
    c.size == p.size && c.ahead >= p.ahead && c.filled <= p.filled
  }

  lemma BehindStep(c: Queue, p: Queue, seen: Observation)
    requires Sound(c) && Sound(p) && Behind(c, p)
    ensures Behind(Observed(Conservative, c, seen), Observed(Proportional, p, seen))
    ensures Behind(Observed(Conservative, c, seen), Observed(Optimistic, p, seen))
    ensures seen.Decrease? ==> Fair(c, seen.size, seen.total) ==>
      Behind(Observed(Proportional, c, seen), Observed(Optimistic, p, seen))
    ensures seen.Trade? ==> Behind(Observed(Proportional, c, seen), Observed(Optimistic, p, seen))
  {
    match seen
    case Trade(size) =>
    case Decrease(size, total) =>
      if total > 0 {
        DivGe(p.ahead * size, total, 0);
        DivGe(c.ahead * size, total, 0);
      }
  }

  /** For the same observations the conservative model fills no more than the other two, which fill at most
      the order; and while every decrease is fair to the proportional queue, that model fills no more than the
      optimistic one. */
  lemma {:induction false} ModelsOrdered(q: Queue, seen: seq<Observation>)
    requires Sound(q)
    ensures Behind(AfterAll(Conservative, q, seen), AfterAll(Proportional, q, seen))
    ensures Behind(AfterAll(Conservative, q, seen), AfterAll(Optimistic, q, seen))
    ensures FairRun(q, seen) ==> Behind(AfterAll(Proportional, q, seen), AfterAll(Optimistic, q, seen))
    ensures AfterAll(Optimistic, q, seen).filled <= q.size && AfterAll(Proportional, q, seen).filled <= q.size
  {
    hide Fair, Observed;
    SoundRun(Proportional, q, seen);
    SoundRun(Optimistic, q, seen);
    if seen != [] {
      var init, last := seen[..|seen| - 1], seen[|seen| - 1];
      ModelsOrdered(q, init);
      SoundRun(Conservative, q, init);
      SoundRun(Proportional, q, init);
      SoundRun(Optimistic, q, init);
      var c, p, o := AfterAll(Conservative, q, init), AfterAll(Proportional, q, init), AfterAll(Optimistic, q, init);
      BehindStep(c, p, last);
      BehindStep(c, o, last);
      if FairRun(q, seen) {
        FairPrefix(q, seen);
        BehindStep(p, o, last);
      }
    }
  }

  lemma FairPrefix(q: Queue, seen: seq<Observation>)
    requires seen != [] && FairRun(q, seen)
    ensures FairRun(q, seen[..|seen| - 1])
    ensures var init, last := seen[..|seen| - 1], seen[|seen| - 1];
      last.Decrease? ==> Fair(AfterAll(Proportional, q, init), last.size, last.total)
  {
    hide Fair, AfterAll;
    var init := seen[..|seen| - 1];
    forall i | 0 <= i < |init| && init[i].Decrease?
      ensures Fair(AfterAll(Proportional, q, init[..i]), init[i].size, init[i].total)
    {
      assert init[..i] == seen[..i];
    }
  }

  /** Under the proportional model a decrease takes the share of it that was ahead, rounded down, off the queue. */
  lemma TakesShare(q: Queue, size: nat, total: int)
    requires Sound(q) && total > 0
    ensures exists share: nat ::
      && share * total <= q.ahead * size < (share + 1) * total
      && Decreased(Proportional, q, size, total) == q.(ahead := if share <= q.ahead then q.ahead - share else 0)
  {
    MulLe(0, q.ahead, size);
    var share := q.ahead * size / total;
    DivGe(q.ahead * size, total, 0);
    DivGe(q.ahead * size, total, share);
    DivGe(q.ahead * size, total, share + 1);
  }

  /** One decrease keeps the proportional model behind the optimistic one exactly when it is fair. */
  lemma ShareDecidesOrder(p: Queue, size: nat, total: int)
    requires Sound(p)
    ensures Behind(Decreased(Proportional, p, size, total), Decreased(Optimistic, p, size, total))
      <==> Fair(p, size, total)
  {
    if total > 0 { DivGe(p.ahead * size, total, 0); }
  }

  lemma TwoSteps(m: QueueModel, q: Queue, first: Observation, second: Observation)
    ensures AfterAll(m, q, [first, second]) == Observed(m, Observed(m, q, first), second)
  {
    hide Observed;
    assert [first, second][..1] == [first] && [first][..0] == [];
    assert AfterAll(m, q, [first]) == Observed(m, AfterAll(m, q, []), first);
  }

  /** Otherwise the next trade can fill the proportional order while the optimistic one still waits. */
  lemma ProportionalOvertakes(q: Queue, size: nat, total: int)
    requires Sound(q) && q.filled < q.size && !Fair(q, size, total)
    ensures AfterAll(Proportional, q, [Decrease(size, total), Trade(q.ahead - size)]).filled > q.filled
    ensures AfterAll(Optimistic, q, [Decrease(size, total), Trade(q.ahead - size)]).filled == q.filled
  {
    hide AfterAll;
    TwoSteps(Proportional, q, Decrease(size, total), Trade(q.ahead - size));
    TwoSteps(Optimistic, q, Decrease(size, total), Trade(q.ahead - size));
  }

  lemma OvertakingHappens(q: Queue, total: int)
    requires q == Queue(100, 10, 0) && total == 20
    ensures AfterAll(Proportional, q, [Decrease(10, total), Trade(q.ahead - 10)]).filled > 0
    ensures AfterAll(Optimistic, q, [Decrease(10, total), Trade(q.ahead - 10)]).filled == 0
  {
    hide AfterAll;
    ProportionalOvertakes(q, 10, total);
  }

  function Volume(seen: seq<Observation>): nat
  {
    if seen == [] then 0
    else Volume(seen[..|seen| - 1]) + if seen[|seen| - 1].Trade? then seen[|seen| - 1].size else 0
  }

  /** The conservative model in closed form: the order fills with whatever trades beyond the queue that
      was ahead of it, whatever is cancelled in between. */
  lemma {:induction false} ConservativeClosedForm(ahead: nat, size: nat, seen: seq<Observation>)
    ensures AfterAll(Conservative, Queue(ahead, size, 0), seen)
      == Queue(Max(0, ahead - Volume(seen)), size, Min(size, Max(0, Volume(seen) - ahead)))
  {
    if seen != [] { ConservativeClosedForm(ahead, size, seen[..|seen| - 1]); }
  }
}
