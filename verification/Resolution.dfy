/** The market the event loop drives: reconstructed books, one portfolio and the set of resolved
    conditions. Resolution is final. */
module Resolution {
  import opened FixedPoint
  import opened Fees
  import opened Market
  import opened Books
  import opened Execution
  import opened ExecutionRules
  import opened Engine
  import opened NoLookAhead
  import P = Portfolios
  import R = Reconstruction

  /** A market event; trades and reference prices only carry data for the strategy. */
  datatype Payload = BookEvent(token: nat, feed: R.Feed) | Resolve(condition: int, winner: nat) | Quote(data: seq<int>)

  type Stamped = Engine.Event<Payload>

  /** The market together with whatever the strategy remembers. */
  datatype World<M> = World(account: P.Account, views: map<nat, R.View>, resolved: set<int>, memory: M)

  /** A strategy sees every event in the world it leaves, updates its memory and answers with orders. */
  datatype Strategy<!M> = Strategy(
    remember: (World<M>, Stamped) -> M,
    decide: (World<M>, Stamped) -> seq<Engine.Intent<Execution.Intent>>)

  function Opening<M>(cash: int, memory: M): World<M> { World(P.OpenAccount(cash), map[], {}, memory) }

  function ViewIn<M>(w: World<M>, t: nat): R.View { if t in w.views then w.views[t] else R.UNSEEN }

  function Heeded<M>(w: World<M>, e: Stamped): Option<World<M>>
  {
    match e.payload
    case BookEvent(t, feed) =>
      var (view, verdict) := R.Fed(ViewIn(w, t), feed);
      if verdict.Raised? then None else Some(w.(views := w.views[t := view]))
    case Resolve(c, winner) =>
      Some(w.(account := P.Settled(w.account, c, winner), resolved := w.resolved + {c}))
    case Quote(_) => Some(w)
  }

  /** A pending order is refused once its condition is resolved, or while its book is missing. */
  function FillsOf<M>(fee: FeeConfig, w: World<M>, o: Execution.Intent): seq<Slice>
    requires fee.Valid()
  {
    if o.condition in w.resolved || ViewIn(w, o.token).book.None? then []
    else Fills(fee, ViewIn(w, o.token).book.value, w.account, o)
  }

  /** A pending order meets the market. */
  function Met<M>(fee: FeeConfig, w: World<M>, o: Execution.Intent): World<M>
    requires fee.Valid()
  {
    if o.condition in w.resolved || ViewIn(w, o.token).book.None? then w
    else
      var v, fills := ViewIn(w, o.token), FillsOf(fee, w, o);
      w.(account := P.FilledAll(w.account, o.condition, o.token, o.side, fills),
         views := w.views[o.token := v.(book := Some(Consumed(v.book.value, o.side, fills)))])
  }

  function Remembered<M>(s: Strategy<M>, w: Option<World<M>>, e: Stamped): Option<World<M>>
  {
    if w.None? then None else Some(w.value.(memory := s.remember(w.value, e)))
  }

  function MarketKernel<M>(fee: FeeConfig, s: Strategy<M>): Kernel<World<M>, Payload, Execution.Intent>
    requires fee.Valid()
  {
    Kernel((w: World<M>, e: Stamped) => Remembered(s, Heeded(w, e), e), s.decide,
           (w: World<M>, p: Pending<Execution.Intent>) => Met(fee, w, p.order))
  }

  /** An order of a resolved market, or of a token without a book, changes nothing; any other trades by its rule, in the
      account and in the book's overlay alike. */
  lemma MeetsMarket<M>(fee: FeeConfig, w: World<M>, o: Execution.Intent)
    requires fee.Valid()
    ensures var v, after := ViewIn(w, o.token), Met(fee, w, o);
      if o.condition in w.resolved || v.book.None? then after == w
      else
        exists result: OrderResult ::
          && ExecuteRule(fee, v.book.value, w.account, o, result)
          && after.account == P.FilledAll(w.account, o.condition, o.token, o.side, result.fills)
          && ViewIn(after, o.token) == v.(book := Some(Consumed(v.book.value, o.side, result.fills)))
          && after.resolved == w.resolved && forall t: nat :: t != o.token ==> ViewIn(after, t) == ViewIn(w, t)
  {
    hide Fills, ExecuteRule, P.FilledAll, Consumed;
    var v := ViewIn(w, o.token);
    if !(o.condition in w.resolved || v.book.None?) {
      var fills := Fills(fee, v.book.value, w.account, o);
      var result := OrderResult(StatusOf(o, fills), fills);
      ExecutedByRule(fee, v.book.value, w.account, o);
      assert ExecuteRule(fee, v.book.value, w.account, o, result);
    }
  }

  /** Every order names the condition its token belongs to. */
  ghost predicate Consistent(cond: nat -> int, trace: seq<Step<Execution.Intent>>)
  {
    forall s <- trace :: s.Executed? ==> s.order.order.condition == cond(s.order.order.token)
  }

  /** Positions sit under their token's condition, sound, and are flat once it is resolved. */
  ghost predicate Flat(cond: nat -> int, a: P.Account, resolved: set<int>)
  {
    && P.Sound(a.positions)
    && forall t <- a.positions ::
         a.positions[t].condition == cond(t) && (cond(t) in resolved ==> a.positions[t].shares == 0)
  }

  ghost predicate BooksSound(views: map<nat, R.View>)
  {
    forall t <- views :: views[t].book.Some? ==> Books.Sound(views[t].book.value)
  }

  ghost predicate Kept<M>(cond: nat -> int, w: World<M>) { Flat(cond, w.account, w.resolved) && BooksSound(w.views) }

  lemma {:induction false} FilledAllFlat(cond: nat -> int, a: P.Account, resolved: set<int>, token: nat, side: Side, plan: seq<Slice>)
    requires Flat(cond, a, resolved) && cond(token) !in resolved && forall s <- plan :: s.size > 0
    ensures Flat(cond, P.FilledAll(a, cond(token), token, side, plan), resolved)
  {
    if plan != [] {
      FilledAllFlat(cond, a, resolved, token, side, plan[..|plan| - 1]);
      P.FilledSound(P.FilledAll(a, cond(token), token, side, plan[..|plan| - 1]),
                    P.Fill(cond(token), token, side, plan[|plan| - 1]));
    }
  }

  lemma FillsPositive<M>(fee: FeeConfig, w: World<M>, o: Execution.Intent)
    requires fee.Valid()
    ensures forall s <- FillsOf(fee, w, o) :: s.size > 0 && s.fee >= 0
  {
    if ViewIn(w, o.token).book.Some? {
      PlanCharged(fee, o, Available(ViewIn(w, o.token).book.value, o.side), o.shares, 1);
      assert forall s <- FillsOf(fee, w, o) :: Priced(fee, s);
    }
  }

  lemma MetKept<M>(fee: FeeConfig, cond: nat -> int, w: World<M>, o: Execution.Intent)
    requires fee.Valid() && Kept(cond, w) && o.condition == cond(o.token)
    ensures Kept(cond, Met(fee, w, o))
  {
    if !(o.condition in w.resolved || ViewIn(w, o.token).book.None?) {
      ExecutedBookSound(fee, ViewIn(w, o.token).book.value, w.account, o);
      FillsPositive(fee, w, o);
      FilledAllFlat(cond, w.account, w.resolved, o.token, o.side, FillsOf(fee, w, o));
    }
  }

  lemma HeededKept<M>(cond: nat -> int, w: World<M>, e: Stamped)
    requires Kept(cond, w) && Heeded(w, e).Some?
    ensures Kept(cond, Heeded(w, e).value)
  {
    match e.payload
    case BookEvent(t, feed) => R.FedSound(ViewIn(w, t), feed);
    case Resolve(c, winner) =>
    case Quote(_) =>
  }

  lemma OpeningKept<M>(cond: nat -> int, cash: int, memory: M)
    ensures Kept(cond, Opening(cash, memory))
  {
  }

  // ---- the account as a ledger --------------------------------------------------------------

  function FillOps(o: Execution.Intent, fills: seq<Slice>): seq<P.Op>
  {
    seq(|fills|, i requires 0 <= i < |fills| => P.Trade(P.Fill(o.condition, o.token, o.side, fills[i])))
  }

  /** The account operations of one event or order. */
  function OpsOfEvent(e: Stamped): seq<P.Op>
  {
    if e.payload.Resolve? then [P.Settle(e.payload.condition, e.payload.winner)] else []
  }

  /** Every fill and every settlement of a run, in order. */
  ghost function OpsIn<M>(fee: FeeConfig, s: Strategy<M>, start: World<M>, events: seq<Stamped>,
                          trace: seq<Step<Execution.Intent>>): seq<P.Op>
    requires fee.Valid() && StateAfter(MarketKernel(fee, s), start, events, trace).Some?
  {
    if trace == [] then []
    else
      var init, last := trace[..|trace| - 1], trace[|trace| - 1];
      var before := StateAfter(MarketKernel(fee, s), start, events, init).value;
      OpsIn(fee, s, start, events, init) +
      match last
      case Heard => OpsOfEvent(events[HeardIn(init)])
      case Executed(p, _) => FillOps(p.order, FillsOf(fee, before, p.order))
  }

  lemma {:induction false} OpsConcat(a: P.Account, x: seq<P.Op>, y: seq<P.Op>)
    ensures P.AfterOps(a, x + y) == P.AfterOps(P.AfterOps(a, x), y)
  {
    hide P.AfterOp;
    if y == [] {
      assert x + y == x;
    } else {
      assert (x + y)[..|x + y| - 1] == x + y[..|y| - 1];
      OpsConcat(a, x, y[..|y| - 1]);
    }
  }

  lemma {:induction false} FilledAllOps(a: P.Account, o: Execution.Intent, fills: seq<Slice>)
    ensures P.AfterOps(a, FillOps(o, fills)) == P.FilledAll(a, o.condition, o.token, o.side, fills)
  {
    hide P.Filled;
    if fills != [] {
      FilledAllOps(a, o, fills[..|fills| - 1]);
      assert FillOps(o, fills)[..|fills| - 1] == FillOps(o, fills[..|fills| - 1]);
    }
  }

  lemma MetOps<M>(fee: FeeConfig, w: World<M>, o: Execution.Intent)
    requires fee.Valid()
    ensures Met(fee, w, o).account == P.AfterOps(w.account, FillOps(o, FillsOf(fee, w, o)))
  {
    hide Fills;
    FilledAllOps(w.account, o, FillsOf(fee, w, o));
  }

  lemma HeededOps<M>(w: World<M>, e: Stamped)
    requires Heeded(w, e).Some?
    ensures Heeded(w, e).value.account == P.AfterOps(w.account, OpsOfEvent(e))
  {
    if e.payload.Resolve? { assert OpsOfEvent(e)[..0] == []; }
  }

  /** The account of a run is the fold of its fills and settlements, each of positive size. */
  lemma {:induction false} AccountIsLedger<M>(fee: FeeConfig, s: Strategy<M>, cash: int, memory: M, events: seq<Stamped>,
                                              trace: seq<Step<Execution.Intent>>)
    requires fee.Valid() && StateAfter(MarketKernel(fee, s), Opening(cash, memory), events, trace).Some?
    ensures var ops := OpsIn(fee, s, Opening(cash, memory), events, trace);
      && StateAfter(MarketKernel(fee, s), Opening(cash, memory), events, trace).value.account
           == P.AfterOps(P.OpenAccount(cash), ops)
      && forall op <- ops :: op.Trade? ==> op.fill.slice.size > 0
  {
    hide Heeded, Met, FillsOf, P.AfterOps;
    var k, start := MarketKernel(fee, s), Opening(cash, memory);
    if trace == [] {
      NoOps(P.OpenAccount(cash));
    } else {
      var init, last := trace[..|trace| - 1], trace[|trace| - 1];
      AccountIsLedger(fee, s, cash, memory, events, init);
      var before, ops := StateAfter(k, start, events, init).value, OpsIn(fee, s, start, events, init);
      match last
      case Heard =>
        HeededOps(before, events[HeardIn(init)]);
        OpsConcat(P.OpenAccount(cash), ops, OpsOfEvent(events[HeardIn(init)]));
      case Executed(p, _) =>
        MetOps(fee, before, p.order);
        FillsPositive(fee, before, p.order);
        OpsConcat(P.OpenAccount(cash), ops, FillOps(p.order, FillsOf(fee, before, p.order)));
    }
  }

  lemma NoOps(a: P.Account)
    ensures P.AfterOps(a, []) == a
  {
  }

  // ---- every run ----------------------------------------------------------------------------

  lemma {:induction false} RunKept<M>(fee: FeeConfig, s: Strategy<M>, cash: int, memory: M, events: seq<Stamped>,
                                      trace: seq<Step<Execution.Intent>>, cond: nat -> int)
    requires fee.Valid() && Consistent(cond, trace)
    requires StateAfter(MarketKernel(fee, s), Opening(cash, memory), events, trace).Some?
    ensures Kept(cond, StateAfter(MarketKernel(fee, s), Opening(cash, memory), events, trace).value)
  {
    hide Flat, BooksSound, Heeded, Met;
    var k, start := MarketKernel(fee, s), Opening(cash, memory);
    if trace == [] {
      OpeningKept(cond, cash, memory);
    } else {
      var init, last := trace[..|trace| - 1], trace[|trace| - 1];
      RunKept(fee, s, cash, memory, events, init, cond);
      var before := StateAfter(k, start, events, init).value;
      match last
      case Heard => HeededKept(cond, before, events[HeardIn(init)]);
      case Executed(p, _) => assert last in trace; MetKept(fee, cond, before, p.order);
    }
  }

  /** Over every possible run of every strategy: all books stay sound, no position is short, the positions of
      every resolved condition are flat, and cash plus cost basis is exactly the starting cash plus realized
      profit less the fees paid on buys. */
  lemma EveryRunKept<M>(fee: FeeConfig, s: Strategy<M>, cash: int, memory: M, events: seq<Stamped>,
                        trace: seq<Step<Execution.Intent>>, cond: nat -> int)
    requires fee.Valid() && Consistent(cond, trace)
    requires StateAfter(MarketKernel(fee, s), Opening(cash, memory), events, trace).Some?
    ensures var w := StateAfter(MarketKernel(fee, s), Opening(cash, memory), events, trace).value;
      && Kept(cond, w)
      && w.account.cash + P.TotalCost(w.account.positions) == cash + w.account.realized
           - P.BuyFees(P.OpenAccount(cash), OpsIn(fee, s, Opening(cash, memory), events, trace))
  {
    hide Kept, StateAfter, OpsIn, MarketKernel;
    RunKept(fee, s, cash, memory, events, trace, cond);
    AccountIsLedger(fee, s, cash, memory, events, trace);
    P.AccountIdentity(cash, OpsIn(fee, s, Opening(cash, memory), events, trace));
  }

  /** A condition, once resolved, stays resolved. */
  lemma {:induction false} StaysResolved<M>(fee: FeeConfig, s: Strategy<M>, start: World<M>, events: seq<Stamped>,
                                            trace: seq<Step<Execution.Intent>>, i: nat)
    requires fee.Valid() && i <= |trace| && StateAfter(MarketKernel(fee, s), start, events, trace).Some?
    ensures var k := MarketKernel(fee, s);
      StateAfter(k, start, events, trace[..i]).Some? &&
      StateAfter(k, start, events, trace[..i]).value.resolved <= StateAfter(k, start, events, trace).value.resolved
    decreases |trace|
  {
    hide R.Fed, FillsOf;
    if i == |trace| {
      assert trace[..i] == trace;
    } else {
      var init := trace[..|trace| - 1];
      assert init[..i] == trace[..i];
      StaysResolved(fee, s, start, events, init, i);
    }
  }

  lemma ResolvedBy<M>(fee: FeeConfig, s: Strategy<M>, start: World<M>, events: seq<Stamped>,
                      trace: seq<Step<Execution.Intent>>, i: nat, n: nat)
    requires fee.Valid() && i < n <= |trace| && trace[i].Heard?
    requires StateAfter(MarketKernel(fee, s), start, events, trace).Some?
    ensures HeardIn(trace[..i]) < |events| && StateAfter(MarketKernel(fee, s), start, events, trace[..n]).Some?
    ensures events[HeardIn(trace[..i])].payload.Resolve? ==>
      events[HeardIn(trace[..i])].payload.condition
        in StateAfter(MarketKernel(fee, s), start, events, trace[..n]).value.resolved
  {
    hide R.Fed, FillsOf;
    StaysResolved(fee, s, start, events, trace, n);
    assert trace[..n][..i + 1] == trace[..i + 1] && trace[..i + 1][..i] == trace[..i];
    StaysResolved(fee, s, start, events, trace[..n], i + 1);
  }

  /** Resolution is final. In every possible run in which each order meets the events it should and that
      applied a resolution at step `i`, whatever the strategy: every order of that condition that arrives
      before the resolution had executed, every other one executes later and changes nothing, and from the
      resolution on the condition's positions are flat. */
  lemma ResolutionIsFinal<M>(fee: FeeConfig, s: Strategy<M>, cash: int, memory: M, events: seq<Stamped>,
                             trace: seq<Step<Execution.Intent>>, cond: nat -> int, i: nat)
    requires fee.Valid() && i < |trace| && trace[i].Heard? && Consistent(cond, trace)
    requires StateAfter(MarketKernel(fee, s), Opening(cash, memory), events, trace).Some? && Causal(events, trace)
    ensures HeardIn(trace[..i]) < |events|
    ensures var k, e := MarketKernel(fee, s), events[HeardIn(trace[..i])];
      e.payload.Resolve? ==>
        && (forall j :: 0 <= j < |trace| && trace[j].Executed? && trace[j].order.order.condition == e.payload.condition ==>
              && (j < i <==> trace[j].order.arrival < e.time)
              && (i < j ==> Unmoved(fee, s, Opening(cash, memory), events, trace, j)))
        && (forall n :: i < n <= |trace| ==>
              var w := StateAfter(k, Opening(cash, memory), events, trace[..n]);
              w.Some? && forall t <- w.value.account.positions ::
                cond(t) == e.payload.condition ==> w.value.account.positions[t].shares == 0)
  {
    hide StateAfter, MarketKernel, Unmoved;
    var k, start := MarketKernel(fee, s), Opening(cash, memory);
    ResolvedBy(fee, s, start, events, trace, i, i + 1);
    var e := events[HeardIn(trace[..i])];
    if e.payload.Resolve? {
      forall j | 0 <= j < |trace| && trace[j].Executed? && trace[j].order.order.condition == e.payload.condition
        ensures j < i <==> trace[j].order.arrival < e.time
        ensures i < j ==> Unmoved(fee, s, start, events, trace, j)
      {
        MeetsEvent(k, start, events, trace, i, j);
        if i < j { NothingAfter(fee, s, start, events, trace, i, j); }
      }
      forall n | i < n <= |trace|
        ensures var w := StateAfter(k, start, events, trace[..n]);
          w.Some? && forall t <- w.value.account.positions ::
            cond(t) == e.payload.condition ==> w.value.account.positions[t].shares == 0
      {
        ResolvedBy(fee, s, start, events, trace, i, n);
        RunKept(fee, s, cash, memory, events, trace[..n], cond);
      }
    }
  }

  /** Step `j` leaves the world as it was. */
  ghost predicate Unmoved<M>(fee: FeeConfig, s: Strategy<M>, start: World<M>, events: seq<Stamped>,
                             trace: seq<Step<Execution.Intent>>, j: nat)
    requires fee.Valid() && j < |trace|
  {
    StateAfter(MarketKernel(fee, s), start, events, trace[..j + 1]) == StateAfter(MarketKernel(fee, s), start, events, trace[..j])
  }

  /** An order executes before an event exactly when it arrives before the event's time. */
  lemma MeetsEvent<S, E, O>(k: Kernel<S, E, O>, start: S, events: seq<Engine.Event<E>>, trace: seq<Step<O>>, i: nat, j: nat)
    requires StateAfter(k, start, events, trace).Some? && Causal(events, trace)
    requires i < |trace| && j < |trace| && trace[i].Heard? && trace[j].Executed? && HeardIn(trace[..i]) < |events|
    ensures j < i <==> trace[j].order.arrival < events[HeardIn(trace[..i])].time
  {
    hide StateAfter;
    PrefixPossible(k, start, events, trace, j);
    assert trace[j] in trace;
    if j < i {
      assert trace[..i][..j] == trace[..j];
      HeardPrefix(trace[..i], j);
    } else {
      assert trace[..j][..i] == trace[..i] && trace[..j][i] == trace[i];
      HeardPrefix(trace[..j], i);
    }
  }

  lemma NothingAfter<M>(fee: FeeConfig, s: Strategy<M>, start: World<M>, events: seq<Stamped>,
                        trace: seq<Step<Execution.Intent>>, i: nat, j: nat)
    requires fee.Valid() && i < j < |trace| && trace[i].Heard? && trace[j].Executed?
    requires StateAfter(MarketKernel(fee, s), start, events, trace).Some?
    requires HeardIn(trace[..i]) < |events| && events[HeardIn(trace[..i])].payload.Resolve?
    requires trace[j].order.order.condition == events[HeardIn(trace[..i])].payload.condition
    ensures Unmoved(fee, s, start, events, trace, j)
  {
    hide R.Fed, FillsOf;
    ResolvedBy(fee, s, start, events, trace, i, j);
    PrefixPossible(MarketKernel(fee, s), start, events, trace, j);
    assert trace[..j + 1][..j] == trace[..j];
  }
}
