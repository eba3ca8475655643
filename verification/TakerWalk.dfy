/** The realism-constrained depth walk of a marketable order. */
module TakerWalk {
  import opened FixedPoint
  import opened Fees
  import opened Market

  /** Configurable pessimism applied to every simulated taker order. */
  datatype Realism = Realism(
    haircut: nat, participation: nat, maxLevels: Option<nat>,
    volumePpm: Option<nat>, staleMs: Option<nat>, requireValid: bool,
    maxTicks: Option<nat>, maxPrice: Option<nat>, fee: FeeConfig)
  {
    ghost predicate Valid()
    {
      haircut < PPM && 0 < participation <= PPM && fee.Valid()
    }
  }

  datatype Request = Request(
    side: Side, size: int, limit: Option<int>, realisedVolume: Option<nat>,
    decision: int, arrival: int, bookAge: int, minimum: nat, tick: int)

  /** The worst price the order may accept: its own limit and the distance it may chase the touch,
      whichever is tighter. */
  function EffectiveLimit(r: Realism, side: Side, touch: int, limit: Option<int>, tick: int): Option<int>
  {
    if r.maxTicks.None? && r.maxPrice.None? then limit
    else
      var slack :=
        if r.maxTicks.None? then r.maxPrice.value
        else if r.maxPrice.None? then r.maxTicks.value * Max(tick, 1)
        else Min(r.maxTicks.value * Max(tick, 1), r.maxPrice.value);
      var bound := if side.Buy? then touch + slack else touch - slack;
      match limit
      case None => Some(bound)
      case Some(l) => Some(if side.Buy? then Min(l, bound) else Max(l, bound))
  }

  /** Largest own fill `x` with `x / (volume + x)` at most the participation rate, never below the
      venue minimum. */
  function VolumeCap(r: Realism, volume: Option<nat>, minimum: nat): Option<nat>
  {
    if r.volumePpm.None? || volume.None? then None
    else Some(Max(volume.value * r.volumePpm.value / Max(PPM - r.volumePpm.value, 1), minimum))
  }

  /** How much of one displayed level a single order may take. */
  function Allowed(r: Realism, displayed: nat): nat
    requires r.Valid()
  {
    Min(displayed * (PPM - r.haircut) / PPM, displayed * r.participation / PPM)
  }

  function Visible(r: Realism, ladder: Ladder): Ladder
  {
    if r.maxLevels.None? || |ladder| <= r.maxLevels.value then ladder else ladder[..r.maxLevels.value]
  }

  /** Length of the leading run of levels within the limit. */
  function WithinLimit(side: Side, limit: Option<int>, ladder: Ladder): (n: nat)
    ensures n <= |ladder|
    ensures forall i :: 0 <= i < n ==> !Beyond(side, limit, ladder[i].price)
    ensures n < |ladder| ==> Beyond(side, limit, ladder[n].price)
  {
    if ladder == [] || Beyond(side, limit, ladder[0].price) then 0
    else 1 + WithinLimit(side, limit, ladder[1..])
  }

  /** The levels the walk may touch: within the level cap and the effective limit. */
  function Eligible(r: Realism, q: Request, ladder: Ladder): Ladder
    requires ladder != []
  {
    var limit := EffectiveLimit(r, q.side, ladder[0].price, q.limit, q.tick);
    Visible(r, ladder)[..WithinLimit(q.side, limit, Visible(r, ladder))]
  }

  /** Shares left to take under the request and the volume cap. */
  function Headroom(size: int, cap: Option<nat>): int
  {
    if cap.None? then size else Min(size, cap.value)
  }

  function Budget(r: Realism, q: Request): int
  {
    Headroom(q.size, VolumeCap(r, q.realisedVolume, q.minimum))
  }

  function SumAllowed(r: Realism, levels: Ladder): nat
    requires r.Valid()
  {
    if levels == [] then 0 else Allowed(r, levels[0].size) + SumAllowed(r, levels[1..])
  }

  /** Best-first filling of `left` shares under the per-level allowances. */
  function Greedy(r: Realism, levels: Ladder, left: nat, rank: nat): seq<Slice>
    requires r.Valid()
  {
    if levels == [] then []
    else
      var take := Min(Allowed(r, levels[0].size), left);
      var rest := Greedy(r, levels[1..], left - take, rank + 1);
      if take == 0 then rest else [FillSlice(r.fee, levels[0].price, take, rank)] + rest
  }

  /** Why an order is refused before the walk starts, if it is. */
  function Refusal(r: Realism, q: Request, ladder: Ladder): Option<Reason>
  {
    if q.size <= 0 then Some(NonPositiveSize)
    else if ladder == [] then Some(EmptyBookSide)
    else if q.size < q.minimum then Some(BelowMinimumOrderSize)
    else if r.staleMs.Some? && q.bookAge > r.staleMs.value * 1_000_000 then Some(StaleBook)
    else None
  }

  function Walk(r: Realism, q: Request, ladder: Ladder): Outcome
    requires r.Valid()
  {
    match Refusal(r, q, ladder)
    case Some(reason) => Rejection(q.size, reason, q.decision, q.arrival)
    case None =>
      var slices := Greedy(r, Eligible(r, q, ladder), Budget(r, q), 1);
      var t := TallyOf(slices);
      if t.size == 0 then Rejection(q.size, NoExecutableLiquidity, q.decision, q.arrival)
      else Outcome(q.size, t.size, t.notional, t.fee, slices, None, q.decision, q.arrival)
  }

  lemma GreedyStep(r: Realism, levels: Ladder, i: nat, left: nat)
    requires r.Valid() && i < |levels|
    ensures var take := Min(Allowed(r, levels[i].size), left);
      Greedy(r, levels[i..], left, i + 1) ==
        (if take == 0 then [] else [FillSlice(r.fee, levels[i].price, take, i + 1)])
        + Greedy(r, levels[i + 1..], left - take, i + 2)
  {
  }

  /** One pass over the visible ladder, stopping at the first level beyond the limit, when the order is
      complete, or when the volume cap is used up. */
  method Sweep(r: Realism, side: Side, limit: Option<int>, cap: Option<nat>, size: nat, visible: Ladder)
    returns (slices: seq<Slice>)
    requires r.Valid() && size > 0
    ensures slices == Greedy(r, visible[..WithinLimit(side, limit, visible)], Headroom(size, cap), 1)
  {
    hide FillSlice, Allowed, Greedy, WithinLimit;
    var remaining, consumed, i := size, 0, 0;
    slices := [];
    ghost var eligible := visible[..WithinLimit(side, limit, visible)];
    ghost var all, left := Headroom(size, cap), Headroom(size, cap);
    ghost var rest := Greedy(r, eligible, all, 1);
    assert eligible[0..] == eligible;
    while i < |visible|
      invariant 0 <= i <= |eligible|
      invariant consumed == size - remaining == all - left && 0 <= consumed && 0 <= left && remaining > 0
      invariant rest == Greedy(r, eligible[i..], left, i + 1)
      invariant slices + rest == Greedy(r, eligible, all, 1)
    {
      var price, allowed := visible[i].price, Allowed(r, visible[i].size);
      if Beyond(side, limit, price) {
        break;
      }
      GreedyStep(r, eligible, i, left);
      var take := Min(remaining, allowed);
      if cap.Some? && take > Max(0, cap.value - consumed) {
        take := Max(0, cap.value - consumed);
      }
      assert take == Min(allowed, left);
      i, left := i + 1, left - take;
      rest := Greedy(r, eligible[i..], left, i + 1);
      if take <= 0 {
        if cap.Some? && consumed >= cap.value {
          break;
        }
        continue;
      }
      var slice := FillSlice(r.fee, price, take, i);
      assert slices + ([slice] + rest) == (slices + [slice]) + rest;
      slices := slices + [slice];
      remaining := remaining - take;
      consumed := consumed + take;
      if remaining <= 0 {
        break;
      }
    }
    GreedyNothing(r, eligible[i..], i + 1);
    assert left > 0 ==> eligible[i..] == [];
  }

  /** The walk as the executor performs it. */
  method Execute(r: Realism, q: Request, ladder: Ladder) returns (outcome: Outcome)
    requires r.Valid()
    ensures outcome == Walk(r, q, ladder) && TakesAllItMay(r, q, ladder, outcome)
  {
    hide TakesAllItMay;
    WalkTakesAllItMay(r, q, ladder);
    if q.size <= 0 {
      return Rejection(q.size, NonPositiveSize, q.decision, q.arrival);
    }
    if ladder == [] {
      return Rejection(q.size, EmptyBookSide, q.decision, q.arrival);
    }
    if q.size < q.minimum {
      return Rejection(q.size, BelowMinimumOrderSize, q.decision, q.arrival);
    }
    if r.staleMs.Some? && q.bookAge > r.staleMs.value * 1_000_000 {
      return Rejection(q.size, StaleBook, q.decision, q.arrival);
    }
    var limit := EffectiveLimit(r, q.side, ladder[0].price, q.limit, q.tick);
    var cap := VolumeCap(r, q.realisedVolume, q.minimum);
    var slices := Sweep(r, q.side, limit, cap, q.size, Visible(r, ladder));
    var t := TallyOf(slices);
    if t.size == 0 {
      return Rejection(q.size, NoExecutableLiquidity, q.decision, q.arrival);
    }
    outcome := Outcome(q.size, t.size, t.notional, t.fee, slices, None, q.decision, q.arrival);
  }

  lemma {:induction false} GreedyNothing(r: Realism, levels: Ladder, rank: nat)
    requires r.Valid()
    ensures Greedy(r, levels, 0, rank) == []
    ensures forall left: nat :: Greedy(r, [], left, rank) == []
  {
    if levels != [] { GreedyNothing(r, levels[1..], rank + 1); }
  }

  lemma {:induction false} GreedyTotal(r: Realism, levels: Ladder, left: nat, rank: nat)
    requires r.Valid()
    ensures AllPriced(r.fee, Greedy(r, levels, left, rank))
    ensures TallyOf(Greedy(r, levels, left, rank)).size == Min(left, SumAllowed(r, levels))
  {
    if levels != [] {
      var take := Min(Allowed(r, levels[0].size), left);
      GreedyTotal(r, levels[1..], left - take, rank + 1);
      var rest := Greedy(r, levels[1..], left - take, rank + 1);
      var first := FillSlice(r.fee, levels[0].price, take, rank);
      assert TallyOf([first]).size == take by { assert [first][..0] == []; }
      TallyConcat([first], rest);
    }
  }

  lemma {:induction false} GreedyPrices(r: Realism, levels: Ladder, left: nat, rank: nat)
    requires r.Valid() && Positive(levels)
    ensures forall s <- Greedy(r, levels, left, rank) :: s.price > 0
  {
    if levels != [] {
      assert levels[0] in levels;
      GreedyPrices(r, levels[1..], left - Min(Allowed(r, levels[0].size), left), rank + 1);
    }
  }

  /** The filled size in closed form: zero when refused, and otherwise the smallest of the request,
      the volume cap and the total allowance of the eligible levels. */
  function FilledSize(r: Realism, q: Request, ladder: Ladder): int
    requires r.Valid()
  {
    if Refusal(r, q, ladder).Some? then 0
    else Min(Budget(r, q), SumAllowed(r, Eligible(r, q, ladder)))
  }

  lemma WalkClosedForm(r: Realism, q: Request, ladder: Ladder)
    requires r.Valid()
    ensures var o := Walk(r, q, ladder);
      && o.filled == FilledSize(r, q, ladder)
      && Coherent(r.fee, o)
      && o.filled <= Max(0, q.size)
      && o.requested == q.size && o.arrival == q.arrival && o.decision == q.decision
      && o.rejected != Some(InsufficientAvailableCash)
  {
    if Refusal(r, q, ladder).None? {
      var e := Eligible(r, q, ladder);
      GreedyTotal(r, e, Budget(r, q), 1);
      TallyPositive(r.fee, Greedy(r, e, Budget(r, q), 1));
    }
    assert TallyOf([]) == Tally(0, 0, 0);
  }

  // ---- what the walk may take, and that it takes all of it ----------------------------------

  /** How much worse than the touch a price is for the taker. */
  function Worse(side: Side, touch: int, price: int): int { if side.Buy? then price - touch else touch - price }

  /** Level `i` may be touched: it is among the visible ones, within the order's own limit, and no further from
      the touch than either distance allows. */
  ghost predicate Reaches(r: Realism, q: Request, ladder: Ladder, i: nat)
    requires i < |ladder|
  {
    var touch, price := ladder[0].price, ladder[i].price;
    && (r.maxLevels.Some? ==> i < r.maxLevels.value)
    && (q.limit.Some? ==> if q.side.Buy? then price <= q.limit.value else q.limit.value <= price)
    && (r.maxTicks.Some? ==> Worse(q.side, touch, price) <= r.maxTicks.value * Max(q.tick, 1))
    && (r.maxPrice.Some? ==> Worse(q.side, touch, price) <= r.maxPrice.value)
  }

  /** `size` shares of a level are what the haircut leaves of it, and within the participation share. */
  ghost predicate WithinDials(r: Realism, displayed: nat, size: int)
  {
    size * PPM <= displayed * (PPM - r.haircut) && size * PPM <= displayed * r.participation
  }

  /** A slice is taken from the level its rank names, at that level's price. */
  ghost predicate FromLevel(r: Realism, q: Request, ladder: Ladder, s: Slice)
  {
    && 1 <= s.rank <= |ladder| && Reaches(r, q, ladder, s.rank - 1) && s.price == ladder[s.rank - 1].price
    && 0 < s.size && WithinDials(r, ladder[s.rank - 1].size, s.size)
  }

  /** Every slice comes from a level of its own, best level first. */
  ghost predicate FromLevels(r: Realism, q: Request, ladder: Ladder, slices: seq<Slice>)
  {
    && (forall s <- slices :: FromLevel(r, q, ladder, s))
    && forall i, j :: 0 <= i < j < |slices| ==> slices[i].rank < slices[j].rank
  }

  /** Shares taken from the level of this rank. */
  function TakenFrom(slices: seq<Slice>, rank: nat): nat
  {
    if slices == [] then 0 else (if slices[0].rank == rank then slices[0].size else 0) + TakenFrom(slices[1..], rank)
  }

  /** A total is within the volume cap: the venue minimum covers it, or it is a small enough share of a tape that
      includes it. */
  ghost predicate WithinVolume(r: Realism, q: Request, size: int)
  {
    r.volumePpm.Some? && q.realisedVolume.Some? ==>
      var p, volume := r.volumePpm.value, q.realisedVolume.value;
      size <= q.minimum || if p < PPM then size * PPM <= p * (volume + size) else size <= volume * p
  }

  /** The order may be walked at all. */
  ghost predicate Walkable(r: Realism, q: Request, ladder: Ladder)
  {
    && 0 < q.size && ladder != [] && q.minimum <= q.size
    && (r.staleMs.Some? ==> q.bookAge <= r.staleMs.value * 1_000_000)
  }

  /** One more share at level `i` would break a dial of that level, the request or the volume cap. */
  ghost predicate Exhausted(r: Realism, q: Request, ladder: Ladder, o: Outcome, i: nat)
    requires i < |ladder|
  {
    || !WithinDials(r, ladder[i].size, TakenFrom(o.slices, i + 1) + 1)
    || o.filled + 1 > q.size || !WithinVolume(r, q, o.filled + 1)
  }

  /** The reason given for an order that gets nothing: the first that applies. */
  ghost predicate SaysWhy(r: Realism, q: Request, ladder: Ladder, o: Outcome)
  {
    if o.filled > 0 then o.rejected.None?
    else
      && o.rejected.Some?
      && match o.rejected.value
         case NonPositiveSize => q.size <= 0
         case EmptyBookSide => q.size > 0 && ladder == []
         case BelowMinimumOrderSize => 0 < q.size < q.minimum && ladder != []
         case StaleBook =>
           && 0 < q.size && ladder != [] && q.minimum <= q.size
           && r.staleMs.Some? && q.bookAge > r.staleMs.value * 1_000_000
         case NoExecutableLiquidity => Walkable(r, q, ladder)
         case _ => false
  }

  /** What an order gets: nothing unless it may be walked; otherwise slices within every bound, and as many
      shares as the bounds allow. */
  ghost predicate TakesAllItMay(r: Realism, q: Request, ladder: Ladder, o: Outcome)
  {
    && SaysWhy(r, q, ladder, o)
    && (!Walkable(r, q, ladder) ==> o.filled == 0 && o.slices == [])
    && (Walkable(r, q, ladder) ==>
          && FromLevels(r, q, ladder, o.slices) && 0 <= o.filled <= q.size && WithinVolume(r, q, o.filled)
          && (BestFirst(q.side, ladder) ==>
                forall i :: 0 <= i < |ladder| && Reaches(r, q, ladder, i) ==> Exhausted(r, q, ladder, o, i)))
  }

  lemma AllowedIsWithinDials(r: Realism, displayed: nat, size: int)
    requires r.Valid()
    ensures size <= Allowed(r, displayed) <==> WithinDials(r, displayed, size)
  {
    DivGe(displayed * (PPM - r.haircut), PPM, size);
    DivGe(displayed * r.participation, PPM, size);
  }

  /** The walked levels are among those that may be touched, and on a best-first ladder they are all of them. */
  lemma EligibleReaches(r: Realism, q: Request, ladder: Ladder, i: nat)
    requires ladder != [] && i < |ladder|
    ensures |Eligible(r, q, ladder)| <= |ladder| && Eligible(r, q, ladder) == ladder[..|Eligible(r, q, ladder)|]
    ensures i < |Eligible(r, q, ladder)| ==> Reaches(r, q, ladder, i)
    ensures BestFirst(q.side, ladder) && Reaches(r, q, ladder, i) ==> i < |Eligible(r, q, ladder)|
  {
    var limit := EffectiveLimit(r, q.side, ladder[0].price, q.limit, q.tick);
    assert i < |Visible(r, ladder)| ==> Visible(r, ladder)[i] == ladder[i];
    assert Reaches(r, q, ladder, i) <==> i < |Visible(r, ladder)| && !Beyond(q.side, limit, ladder[i].price);
    if BestFirst(q.side, ladder) && i < |Visible(r, ladder)| { EligibleIsEveryLevelWithin(r, q, ladder, i); }
  }

  lemma {:induction false} GreedyFromLevels(r: Realism, levels: Ladder, left: nat, rank: nat)
    requires r.Valid()
    ensures forall s <- Greedy(r, levels, left, rank) ::
      && rank <= s.rank < rank + |levels| && s.price == levels[s.rank - rank].price
      && 0 < s.size <= Allowed(r, levels[s.rank - rank].size)
    ensures forall i, j :: 0 <= i < j < |Greedy(r, levels, left, rank)| ==>
      Greedy(r, levels, left, rank)[i].rank < Greedy(r, levels, left, rank)[j].rank
  {
    hide Allowed;
    if levels != [] {
      GreedyFromLevels(r, levels[1..], left - Min(Allowed(r, levels[0].size), left), rank + 1);
    }
  }

  lemma {:induction false} TakenElsewhere(slices: seq<Slice>, rank: nat)
    requires forall s <- slices :: s.rank != rank
    ensures TakenFrom(slices, rank) == 0
  {
    if slices != [] {
      assert slices[0] in slices;
      TakenElsewhere(slices[1..], rank);
    }
  }

  lemma GreedyUnfold(r: Realism, levels: Ladder, left: nat, rank: nat)
    requires r.Valid() && levels != []
    ensures var take := Min(Allowed(r, levels[0].size), left);
      var tail := Greedy(r, levels[1..], left - take, rank + 1);
      Greedy(r, levels, left, rank) == if take == 0 then tail else [FillSlice(r.fee, levels[0].price, take, rank)] + tail
  {
  }

  /** Each level gives all it may, unless the shares asked for run out first. */
  lemma {:induction false} GreedyTakes(r: Realism, levels: Ladder, left: nat, rank: nat, i: nat)
    requires r.Valid() && i < |levels|
    ensures TakenFrom(Greedy(r, levels, left, rank), rank + i) == Allowed(r, levels[i].size)
      || TallyOf(Greedy(r, levels, left, rank)).size == left
  {
    hide Allowed, FillSlice, Greedy, TallyOf, TakenFrom;
    var take := Min(Allowed(r, levels[0].size), left);
    var tail := Greedy(r, levels[1..], left - take, rank + 1);
    GreedyTotal(r, levels, left, rank);
    GreedyUnfold(r, levels, left, rank);
    TakenHead(r, levels[0].price, take, rank, tail, rank + i);
    if take < left {
      GreedyFromLevels(r, levels[1..], left - take, rank + 1);
      if i == 0 {
        TakenElsewhere(tail, rank);
      } else {
        GreedyTakes(r, levels[1..], left - take, rank + 1, i - 1);
        GreedyTotal(r, levels[1..], left - take, rank + 1);
      }
    }
  }

  lemma TakenHead(r: Realism, price: nat, take: nat, rank: nat, tail: seq<Slice>, k: nat)
    requires r.Valid()
    ensures TakenFrom((if take == 0 then tail else [FillSlice(r.fee, price, take, rank)] + tail), k)
         == (if rank == k then take else 0) + TakenFrom(tail, k)
  {
    if take != 0 { assert ([FillSlice(r.fee, price, take, rank)] + tail)[1..] == tail; }
  }

  lemma BudgetIsBounds(r: Realism, q: Request, size: int)
    requires 0 < q.size && q.minimum <= q.size
    ensures 0 <= Budget(r, q)
    ensures size <= Budget(r, q) <==> size <= q.size && WithinVolume(r, q, size)
  {
    if r.volumePpm.Some? && q.realisedVolume.Some? { VolumeCapIsShare(r, q.realisedVolume.value, q.minimum, size); }
  }

  lemma WalkSlices(r: Realism, q: Request, ladder: Ladder)
    requires r.Valid() && Walkable(r, q, ladder)
    ensures 0 <= Budget(r, q)
    ensures var o, slices := Walk(r, q, ladder), Greedy(r, Eligible(r, q, ladder), Budget(r, q), 1);
      o.slices == slices && o.filled == TallyOf(slices).size <= Budget(r, q)
  {
    hide Eligible, Greedy, Budget;
    BudgetIsBounds(r, q, 0);
    GreedyTotal(r, Eligible(r, q, ladder), Budget(r, q), 1);
    TallyPositive(r.fee, Greedy(r, Eligible(r, q, ladder), Budget(r, q), 1));
  }

  lemma SlicesFromLevels(r: Realism, q: Request, ladder: Ladder)
    requires r.Valid() && Walkable(r, q, ladder)
    ensures FromLevels(r, q, ladder, Walk(r, q, ladder).slices)
  {
    hide Allowed, WithinDials, Reaches, Eligible, Greedy, Budget, Walk;
    WalkSlices(r, q, ladder);
    GreedyFromLevels(r, Eligible(r, q, ladder), Budget(r, q), 1);
    forall s | s in Walk(r, q, ladder).slices ensures FromLevel(r, q, ladder, s) {
      EligibleReaches(r, q, ladder, 0);
      EligibleReaches(r, q, ladder, s.rank - 1);
      AllowedIsWithinDials(r, ladder[s.rank - 1].size, s.size);
    }
  }

  lemma LevelExhausted(r: Realism, q: Request, ladder: Ladder, i: nat)
    requires r.Valid() && Walkable(r, q, ladder) && BestFirst(q.side, ladder) && i < |ladder| && Reaches(r, q, ladder, i)
    ensures Exhausted(r, q, ladder, Walk(r, q, ladder), i)
  {
    hide Allowed, WithinDials, Reaches, WithinVolume, Eligible, Greedy, Budget, Walk, TallyOf, TakenFrom, BestFirst;
    WalkSlices(r, q, ladder);
    var o := Walk(r, q, ladder);
    BudgetIsBounds(r, q, o.filled + 1);
    EligibleReaches(r, q, ladder, i);
    GreedyTakes(r, Eligible(r, q, ladder), Budget(r, q), 1, i);
    AllowedIsWithinDials(r, ladder[i].size, TakenFrom(o.slices, i + 1) + 1);
  }

  /** The walk takes within every bound, and all that the bounds allow. */
  lemma WalkTakesAllItMay(r: Realism, q: Request, ladder: Ladder)
    requires r.Valid()
    ensures TakesAllItMay(r, q, ladder, Walk(r, q, ladder))
  {
    hide FromLevels, Exhausted, Reaches, WithinVolume, Eligible, Greedy, Budget, SumAllowed, BestFirst;
    WalkClosedForm(r, q, ladder);
    if Walkable(r, q, ladder) {
      WalkSlices(r, q, ladder);
      BudgetIsBounds(r, q, Walk(r, q, ladder).filled);
      SlicesFromLevels(r, q, ladder);
      forall i | 0 <= i < |ladder| && Reaches(r, q, ladder, i) && BestFirst(q.side, ladder)
        ensures Exhausted(r, q, ladder, Walk(r, q, ladder), i)
      {
        LevelExhausted(r, q, ladder, i);
      }
    }
  }

  /** On a best-first ladder the eligible levels are exactly the visible levels within the limit. */
  lemma EligibleIsEveryLevelWithin(r: Realism, q: Request, ladder: Ladder, i: nat)
    requires ladder != [] && BestFirst(q.side, ladder)
    requires i < |Visible(r, ladder)|
    ensures i < |Eligible(r, q, ladder)|
       <==> !Beyond(q.side, EffectiveLimit(r, q.side, ladder[0].price, q.limit, q.tick), ladder[i].price)
  {
  }

  // ---- price optimality --------------------------------------------------------------------

  /** An allocation of shares to the eligible levels that respects every allowance. */
  ghost predicate Feasible(r: Realism, levels: Ladder, alloc: seq<nat>)
    requires r.Valid()
  {
    |alloc| == |levels| && forall i :: 0 <= i < |alloc| ==> alloc[i] <= Allowed(r, levels[i].size)
  }

  ghost function AllocTotal(alloc: seq<nat>): nat
  {
    if alloc == [] then 0 else alloc[0] + AllocTotal(alloc[1..])
  }

  /** What the taker dislikes about a price: paying it, or not receiving it. */
  function Adverse(side: Side, price: nat): int { if side.Buy? then price as int else -(price as int) }

  ghost function AllocBurden(side: Side, levels: Ladder, alloc: seq<nat>): int
    requires |alloc| == |levels|
  {
    if levels == [] then 0
    else Adverse(side, levels[0].price) * alloc[0] + AllocBurden(side, levels[1..], alloc[1..])
  }

  ghost function SliceBurden(side: Side, slices: seq<Slice>): int
  {
    if slices == [] then 0
    else Adverse(side, slices[0].price) * slices[0].size + SliceBurden(side, slices[1..])
  }

  lemma GreedyBurdenStep(r: Realism, side: Side, levels: Ladder, left: nat, rank: nat)
    requires r.Valid() && levels != []
    ensures var take := Min(Allowed(r, levels[0].size), left);
      SliceBurden(side, Greedy(r, levels, left, rank))
        == Adverse(side, levels[0].price) * take
           + SliceBurden(side, Greedy(r, levels[1..], left - take, rank + 1))
  {
  }

  lemma MarginalStep(p: int, q: int, extra: int, extraTail: int, take: int, x: int, greedy: int, other: int)
    requires greedy + p * extraTail <= other
    requires extraTail == extra + take - x && q <= p && 0 <= extra
    ensures p * take + greedy + q * extra <= p * x + other
  {
    assert p * extraTail == p * extra + p * take - p * x;
    MulLe(q, p, extra);
  }

  /** Any feasible allocation at least as large as the greedy one costs at least as much, even when
      each surplus share is charged only a price `q` no worse than every level. */
  lemma {:induction false} GreedyIsCheapest(
    r: Realism, side: Side, levels: Ladder, left: nat, rank: nat, alloc: seq<nat>, q: int)
    requires r.Valid() && BestFirst(side, levels) && Feasible(r, levels, alloc)
    requires forall l <- levels :: q <= Adverse(side, l.price)
    requires Min(left, SumAllowed(r, levels)) <= AllocTotal(alloc)
    ensures SliceBurden(side, Greedy(r, levels, left, rank))
            + q * (AllocTotal(alloc) - Min(left, SumAllowed(r, levels)))
         <= AllocBurden(side, levels, alloc)
  {
    if levels == [] {
      assert q * 0 == 0;
    } else {
      var p, take := Adverse(side, levels[0].price), Min(Allowed(r, levels[0].size), left);
      var tail, rest := levels[1..], alloc[1..];
      var extra := AllocTotal(alloc) - Min(left, SumAllowed(r, levels));
      var extraTail := AllocTotal(rest) - Min(left - take, SumAllowed(r, tail));
      GreedyIsCheapest(r, side, tail, left - take, rank + 1, rest, p);
      GreedyBurdenStep(r, side, levels, left, rank);
      MarginalStep(p, q, extra, extraTail, take, alloc[0],
        SliceBurden(side, Greedy(r, tail, left - take, rank + 1)), AllocBurden(side, tail, rest));
    }
  }

  /** No allocation of the filled size under the same allowances pays less (buying) or receives more
      (selling) than the walk does. */
  lemma WalkIsCheapest(r: Realism, q: Request, ladder: Ladder, alloc: seq<nat>)
    requires r.Valid() && BestFirst(q.side, ladder) && Refusal(r, q, ladder).None?
    requires Feasible(r, Eligible(r, q, ladder), alloc)
    requires AllocTotal(alloc) == Walk(r, q, ladder).filled
    ensures SliceBurden(q.side, Walk(r, q, ladder).slices)
         <= AllocBurden(q.side, Eligible(r, q, ladder), alloc)
  {
    var e := Eligible(r, q, ladder);
    var q0 := if e == [] then 0 else Adverse(q.side, e[0].price);
    var slices := Greedy(r, e, Budget(r, q), 1);
    GreedyTotal(r, e, Budget(r, q), 1);
    TallyPositive(r.fee, slices);
    GreedyIsCheapest(r, q.side, e, Budget(r, q), 1, alloc, q0);
    assert q0 * 0 == 0;
    assert Walk(r, q, ladder).slices == slices;
  }

  // ---- pessimism is monotone ---------------------------------------------------------------

  ghost predicate AtMostCap(a: Option<nat>, b: Option<nat>)
  {
    b.None? || (a.Some? && a.value <= b.value)
  }

  /** Every dial of `a` is at least as pessimistic as the same dial of `b`. */
  ghost predicate Tighter(a: Realism, b: Realism)
  {
    && b.haircut <= a.haircut && a.participation <= b.participation
    && AtMostCap(a.maxLevels, b.maxLevels) && AtMostCap(a.volumePpm, b.volumePpm)
    && AtMostCap(a.staleMs, b.staleMs)
    && AtMostCap(a.maxTicks, b.maxTicks) && AtMostCap(a.maxPrice, b.maxPrice)
  }

  lemma AllowedMonotone(a: Realism, b: Realism, size: nat)
    requires a.Valid() && b.Valid() && Tighter(a, b)
    ensures Allowed(a, size) <= Allowed(b, size)
  {
    MulLe(PPM - a.haircut, PPM - b.haircut, size);
    MulLe(a.participation, b.participation, size);
    assert size * (PPM - a.haircut) == (PPM - a.haircut) * size;
    assert size * (PPM - b.haircut) == (PPM - b.haircut) * size;
    assert size * a.participation == a.participation * size;
    assert size * b.participation == b.participation * size;
    DivLe(size * (PPM - a.haircut), size * (PPM - b.haircut), PPM);
    DivLe(size * a.participation, size * b.participation, PPM);
  }

  lemma {:induction false} SumAllowedMonotone(a: Realism, b: Realism, levels: Ladder, n: nat, m: nat)
    requires a.Valid() && b.Valid() && Tighter(a, b) && n <= m <= |levels|
    ensures SumAllowed(a, levels[..n]) <= SumAllowed(b, levels[..m])
  {
    if n > 0 {
      AllowedMonotone(a, b, levels[0].size);
      SumAllowedMonotone(a, b, levels[1..], n - 1, m - 1);
      assert levels[..n][1..] == levels[1..][..n - 1] && levels[..m][1..] == levels[1..][..m - 1];
    }
  }

  lemma VolumeCapMonotone(a: Realism, b: Realism, volume: Option<nat>, minimum: nat)
    requires Tighter(a, b)
    ensures AtMostCap(VolumeCap(a, volume, minimum), VolumeCap(b, volume, minimum))
  {
    if volume.Some? && a.volumePpm.Some? && b.volumePpm.Some? {
      var v, p, q := volume.value, a.volumePpm.value, b.volumePpm.value;
      var dp, dq := Max(PPM - p, 1), Max(PPM - q, 1);
      MulLe(p, q, v);
      assert v * p == p * v && v * q == q * v;
      DivLe(v * p, v * q, dp);
      var k := v * q / dp;
      DivGe(v * q, dp, k);
      DivGe(v * q, dp, 0);
      MulLe(dq, dp, k);
      assert k * dq == dq * k && k * dp == dp * k;
      DivGe(v * q, dq, k);
    }
  }

  /** The cap admits a size exactly when the venue minimum covers it or the size is at most the
      participation share of a tape that includes it. A rate of the whole tape or more is no share of it;
      then the cap is that multiple of the volume. */
  lemma VolumeCapIsShare(r: Realism, volume: nat, minimum: nat, size: int)
    requires r.volumePpm.Some?
    ensures var p := r.volumePpm.value;
      size <= VolumeCap(r, Some(volume), minimum).value <==>
        size <= minimum || if p < PPM then size * PPM <= p * (volume + size) else size <= volume * p
  {
    var p := r.volumePpm.value;
    if p < PPM {
      DivGe(volume * p, PPM - p, size);
      DivGe(volume * p, PPM - p, 0);
      assert size * (PPM - p) == size * PPM - size * p;
      assert p * (volume + size) == volume * p + size * p;
    } else {
      DivBracket(volume * p, 1, volume * p);
    }
  }

  lemma EligibleMonotone(a: Realism, b: Realism, q: Request, ladder: Ladder)
    requires Tighter(a, b) && ladder != [] && BestFirst(q.side, ladder)
    ensures |Eligible(a, q, ladder)| <= |Eligible(b, q, ladder)|
    ensures Eligible(a, q, ladder) == ladder[..|Eligible(a, q, ladder)|]
    ensures Eligible(b, q, ladder) == ladder[..|Eligible(b, q, ladder)|]
  {
    var n, m := |Eligible(a, q, ladder)|, |Eligible(b, q, ladder)|;
    if m < n {
      if a.maxTicks.Some? && b.maxTicks.Some? {
        MulLe(a.maxTicks.value, b.maxTicks.value, Max(q.tick, 1));
      }
      assert m < |Visible(b, ladder)|;
      EligibleIsEveryLevelWithin(a, q, ladder, m);
      EligibleIsEveryLevelWithin(b, q, ladder, m);
    }
  }

  /** Turning any dial toward pessimism never fills more of the same order. */
  lemma PessimismMonotone(a: Realism, b: Realism, q: Request, ladder: Ladder)
    requires a.Valid() && b.Valid() && Tighter(a, b) && BestFirst(q.side, ladder)
    ensures Walk(a, q, ladder).filled <= Walk(b, q, ladder).filled
  {
    WalkClosedForm(a, q, ladder);
    WalkClosedForm(b, q, ladder);
    TallyPositive(b.fee, Walk(b, q, ladder).slices);
    if Refusal(a, q, ladder).None? {
      EligibleMonotone(a, b, q, ladder);
      SumAllowedMonotone(a, b, ladder, |Eligible(a, q, ladder)|, |Eligible(b, q, ladder)|);
      VolumeCapMonotone(a, b, q.realisedVolume, q.minimum);
    }
  }

  datatype PresetName = Optimistic | Base | Pessimistic

  function Preset(name: PresetName, fee: FeeConfig): Realism
  {
    match name
    case Optimistic => Realism(0, PPM, None, None, None, true, None, None, fee)
    case Base => Realism(250_000, 500_000, None, None, Some(5_000), true, Some(10), Some(10_000), fee)
    case Pessimistic => Realism(500_000, 250_000, Some(5), None, Some(2_000), true, Some(5), Some(5_000), fee)
  }

  /** The three shipped presets are ordered for every order, ladder, tick and book age. */
  lemma PresetsOrdered(fee: FeeConfig, q: Request, ladder: Ladder)
    requires fee.Valid() && BestFirst(q.side, ladder)
    ensures Walk(Preset(Pessimistic, fee), q, ladder).filled <= Walk(Preset(Base, fee), q, ladder).filled
    ensures Walk(Preset(Base, fee), q, ladder).filled <= Walk(Preset(Optimistic, fee), q, ladder).filled
  {
    PessimismMonotone(Preset(Pessimistic, fee), Preset(Base, fee), q, ladder);
    PessimismMonotone(Preset(Base, fee), Preset(Optimistic, fee), q, ladder);
  }
}
