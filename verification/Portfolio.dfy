/** Weighted-average-cost accounting of the reference simulator, with short selling and negative
    cash switched off. */
module Portfolios {
  import opened FixedPoint
  import opened Market
  import opened Ladders

  type Token = nat

  datatype Position = Position(condition: int, shares: int, cost: int)

  type Positions = map<Token, Position>

  datatype Account = Account(cash: int, positions: Positions, realized: int, fees: int)

  datatype Fill = Fill(condition: int, token: Token, side: Side, slice: Slice)

  function OpenAccount(cash: int): Account { Account(cash, map[], 0, 0) }

  /** The token's position; a token without one starts flat, under the condition of the fill that asks. */
  function PositionOf(a: Account, token: Token, condition: int): Position
  {
    if token in a.positions then a.positions[token] else Position(condition, 0, 0)
  }

  function Inventory(a: Account, token: Token): int
  {
    if token in a.positions then a.positions[token].shares else 0
  }

  /** Share of the cost basis that leaves with `size` of `shares`. */
  function RemovedCost(p: Position, size: nat): int
  {
    if p.shares == 0 then 0 else p.cost * size / p.shares
  }

  /** An order may be filled only from cash or inventory that is there. */
  predicate Raises(a: Account, f: Fill)
  {
    if f.side.Buy? then f.slice.notional + f.slice.fee > a.cash
    else f.slice.size > PositionOf(a, f.token, f.condition).shares
  }

  function Filled(a: Account, f: Fill): Account
  {
    var p := PositionOf(a, f.token, f.condition);
    var s := f.slice;
    if Raises(a, f) then a.(positions := a.positions[f.token := p])
    else if f.side.Buy? then
      a.(cash := a.cash - (s.notional + s.fee), fees := a.fees + s.fee,
         positions := a.positions[f.token := p.(shares := p.shares + s.size, cost := p.cost + s.notional)])
    else
      var removed := RemovedCost(p, s.size);
      a.(cash := a.cash + (s.notional - s.fee), fees := a.fees + s.fee,
         positions := a.positions[f.token := p.(shares := p.shares - s.size, cost := p.cost - removed)],
         realized := a.realized + (s.notional - s.fee - removed))
  }

  /** A buy adds its shares and its notional; its fee is paid in cash and not part of the cost. */
  ghost predicate Bought(before: Account, after: Account, f: Fill)
  {
    var p := PositionOf(before, f.token, f.condition);
    && after.positions == before.positions[f.token := p.(shares := p.shares + f.slice.size, cost := p.cost + f.slice.notional)]
    && after.cash == before.cash - f.slice.notional - f.slice.fee && after.fees == before.fees + f.slice.fee
    && after.realized == before.realized
  }

  /** A sale leaves what remains at the average cost it had, to within the rounding of one unit, and realizes its
      proceeds less the cost that went. */
  ghost predicate Sold(before: Account, after: Account, f: Fill)
  {
    var p, size := PositionOf(before, f.token, f.condition), f.slice.size;
    && f.token in after.positions
    && var q := after.positions[f.token];
    && after.positions == before.positions[f.token := q] && q.condition == p.condition && q.shares == p.shares - size
    && p.cost * (p.shares - size) <= q.cost * p.shares < p.cost * (p.shares - size) + p.shares
    && after.cash == before.cash + f.slice.notional - f.slice.fee && after.fees == before.fees + f.slice.fee
    && after.realized - before.realized == f.slice.notional - f.slice.fee - (p.cost - q.cost)
  }

  lemma FillAccounted(a: Account, f: Fill)
    requires !Raises(a, f) && f.slice.size > 0
    ensures if f.side.Buy? then Bought(a, Filled(a, f), f) else Sold(a, Filled(a, f), f)
  {
    if f.side.Sell? { AverageStays(PositionOf(a, f.token, f.condition), f.slice.size); }
  }

  lemma AverageStays(p: Position, size: nat)
    requires 0 < size <= p.shares
    ensures var left := p.cost - RemovedCost(p, size);
      p.cost * (p.shares - size) <= left * p.shares < p.cost * (p.shares - size) + p.shares
  {
    var whole := p.cost * size;
    var removed := whole / p.shares;
    assert whole == removed * p.shares + whole % p.shares;
    assert p.cost * (p.shares - size) == p.cost * p.shares - whole;
    assert (p.cost - removed) * p.shares == p.cost * p.shares - removed * p.shares;
  }

  /** A resolved position is flat. */
  function Cleared(p: Position, condition: int): Position
  {
    if p.condition == condition && p.shares != 0 then p.(shares := 0, cost := 0) else p
  }

  function ClearAll(ps: Positions, condition: int): Positions
  {
    map t | t in ps :: Cleared(ps[t], condition)
  }

  /** Positions while settlement has visited only the tokens in `done`. */
  function ClearSome(ps: Positions, done: set<Token>, condition: int): Positions
  {
    map t | t in ps :: if t in done then Cleared(ps[t], condition) else ps[t]
  }

  lemma ClearStep(ps: Positions, done: set<Token>, t: Token, condition: int)
    requires t in ps && t !in done
    ensures ClearSome(ps, done, condition)[t] == ps[t]
    ensures ClearSome(ps, done + {t}, condition)
         == ClearSome(ps, done, condition)[t := Cleared(ps[t], condition)]
    ensures TotalCost(ClearSome(ps, done + {t}, condition))
         == TotalCost(ClearSome(ps, done, condition)) + Cleared(ps[t], condition).cost - ps[t].cost
  {
    var now, next := ClearSome(ps, done, condition), ClearSome(ps, done + {t}, condition);
    assert next == now[t := Cleared(ps[t], condition)];
    TotalCostUpdate(now, t, Cleared(ps[t], condition));
  }

  function Payout(a: Account, condition: int, winner: Token): int
  {
    if winner in a.positions && a.positions[winner].condition == condition
    then a.positions[winner].shares else 0
  }

  function PaidFor(a: Account, done: set<Token>, condition: int, winner: Token): int
  {
    if winner in done then Payout(a, condition, winner) else 0
  }

  /** Settlement pays one unit of collateral per winning share, clears every position of the market
      and realizes the payout less the cost basis that was cleared. */
  function Settled(a: Account, condition: int, winner: Token): Account
  {
    var cleared := ClearAll(a.positions, condition);
    a.(cash := a.cash + Payout(a, condition, winner), positions := cleared,
       realized := a.realized + Payout(a, condition, winner) - (TotalCost(a.positions) - TotalCost(cleared)))
  }

  /** Each share of the winning token pays one unit, a share of any other token nothing; every position of the
      market is flat afterwards, without cost, and no other position changes. */
  ghost predicate PaidOut(before: Account, after: Account, condition: int, winner: Token, payout: int)
  {
    && payout == (if winner in before.positions && before.positions[winner].condition == condition
                  then before.positions[winner].shares else 0)
    && after.cash == before.cash + payout && after.fees == before.fees && after.positions.Keys == before.positions.Keys
    && (forall t <- before.positions ::
          var p, q := before.positions[t], after.positions[t];
          if p.condition == condition && p.shares != 0 then q == Position(condition, 0, 0) else q == p)
    && after.realized == before.realized + payout - (TotalCost(before.positions) - TotalCost(after.positions))
  }

  // ---- cost basis totals --------------------------------------------------------------------

  function TotalCost(ps: Positions): int
    decreases |ps.Keys|
  {
    if ps.Keys == {} then 0
    else
      var t := Least(ps.Keys);
      assert (ps - {t}).Keys == ps.Keys - {t};
      ps[t].cost + TotalCost(ps - {t})
  }

  lemma {:induction false} TotalCostWithout(ps: Positions, t: Token)
    requires t in ps
    ensures TotalCost(ps) == ps[t].cost + TotalCost(ps - {t})
    decreases |ps.Keys|
  {
    var m := Least(ps.Keys);
    assert (ps - {m}).Keys == ps.Keys - {m};
    if t != m {
      TotalCostWithout(ps - {m}, t);
      assert (ps - {t}).Keys == ps.Keys - {t};
      assert m in (ps - {t}).Keys && Least((ps - {t}).Keys) == m;
      assert ps - {m} - {t} == ps - {t} - {m};
    }
  }

  lemma TotalCostUpdate(ps: Positions, t: Token, p: Position)
    ensures TotalCost(ps[t := p]) == TotalCost(ps) + p.cost - (if t in ps then ps[t].cost else 0)
  {
    TotalCostWithout(ps[t := p], t);
    if t in ps {
      TotalCostWithout(ps, t);
      assert ps[t := p] - {t} == ps - {t};
    } else {
      assert ps[t := p] - {t} == ps;
    }
  }

  /** The portfolio object. */
  class Portfolio {
    var cash: int
    var positions: Positions
    var realized: int
    var fees: int

    constructor (startingCash: int)
      ensures State() == OpenAccount(startingCash)
    {
      cash, positions, realized, fees := startingCash, map[], 0, 0;
    }

    function State(): Account
      reads this
    {
      Account(cash, positions, realized, fees)
    }

    method ApplyFill(f: Fill) returns (raised: bool)
      modifies this
      ensures raised == Raises(old(State()), f)
      ensures raised <==> if f.side.Buy? then old(cash) - f.slice.notional - f.slice.fee < 0
                          else old(Inventory(State(), f.token)) - f.slice.size < 0
      ensures State() == Filled(old(State()), f)
      ensures !raised && f.slice.size > 0 ==>
        if f.side.Buy? then Bought(old(State()), State(), f) else Sold(old(State()), State(), f)
    {
      if !Raises(State(), f) && f.slice.size > 0 { FillAccounted(State(), f); }
      var p := PositionOf(State(), f.token, f.condition);
      positions := positions[f.token := p];
      if f.side.Buy? {
        var debit := f.slice.notional + f.slice.fee;
        if debit > cash {
          return true;
        }
        cash := cash - debit;
        positions := positions[f.token := p.(shares := p.shares + f.slice.size, cost := p.cost + f.slice.notional)];
      } else {
        if f.slice.size > p.shares {
          return true;
        }
        var removed := if p.shares == 0 then 0 else p.cost * f.slice.size / p.shares;
        positions := positions[f.token := p.(shares := p.shares - f.slice.size, cost := p.cost - removed)];
        var proceeds := f.slice.notional - f.slice.fee;
        cash := cash + proceeds;
        realized := realized + proceeds - removed;
      }
      fees := fees + f.slice.fee;
      return false;
    }

    /** Visits the positions one by one, skipping flat ones and those of other markets. */
    static method SettleEach(a: Account, condition: int, winner: Token)
      returns (positions: Positions, realized: int, payout: int)
      ensures payout == Payout(a, condition, winner)
      ensures positions == ClearAll(a.positions, condition)
      ensures realized == a.realized + payout - (TotalCost(a.positions) - TotalCost(positions))
    {
      var todo, done := a.positions.Keys, {};
      positions, realized, payout := a.positions, a.realized, 0;
      while todo != {}
        invariant todo == a.positions.Keys - done
        invariant positions == ClearSome(a.positions, done, condition)
        invariant payout == PaidFor(a, done, condition, winner)
        invariant realized == a.realized + payout - (TotalCost(a.positions) - TotalCost(positions))
        decreases |todo|
      {
        var t := Least(todo);
        ClearStep(a.positions, done, t, condition);
        todo, done := todo - {t}, done + {t};
        var p := positions[t];
        if p.condition == condition && p.shares != 0 {
          var paid := if t == winner then p.shares else 0;
          payout := payout + paid;
          realized := realized + (paid - p.cost);
          positions := positions[t := p.(shares := 0, cost := 0)];
        } else {
          assert positions == positions[t := p];
        }
      }
      assert positions == ClearAll(a.positions, condition);
    }

    method SettleMarket(condition: int, winner: Token) returns (payout: int)
      modifies this
      ensures payout == Payout(old(State()), condition, winner)
      ensures State() == Settled(old(State()), condition, winner)
      ensures PaidOut(old(State()), State(), condition, winner, payout)
    {
      positions, realized, payout := SettleEach(State(), condition, winner);
      cash := cash + payout;
    }
  }

  // ---- what every run keeps -----------------------------------------------------------------

  datatype Op = Trade(fill: Fill) | Settle(condition: int, winner: Token)

  function AfterOp(a: Account, op: Op): Account
  {
    match op
    case Trade(f) => Filled(a, f)
    case Settle(c, w) => Settled(a, c, w)
  }

  function AfterOps(a: Account, ops: seq<Op>): Account
  {
    if ops == [] then a else AfterOp(AfterOps(a, ops[..|ops| - 1]), ops[|ops| - 1])
  }

  /** Fees paid on the buys of a run that went through. */
  function BuyFees(a: Account, ops: seq<Op>): int
  {
    if ops == [] then 0
    else
      var init, last := ops[..|ops| - 1], ops[|ops| - 1];
      BuyFees(a, init) +
      if last.Trade? && last.fill.side.Buy? && !Raises(AfterOps(a, init), last.fill)
      then last.fill.slice.fee else 0
  }

  /** No position is short, and a flat position carries no cost. */
  ghost predicate Sound(ps: Positions)
  {
    forall t <- ps :: 0 <= ps[t].shares && 0 <= ps[t].cost && (ps[t].shares == 0 ==> ps[t].cost == 0)
  }

  /** Selling part of a position removes part of its cost; selling all of it removes all. */
  lemma RemovedWithin(p: Position, size: nat)
    requires 0 < p.shares && 0 <= p.cost && size <= p.shares
    ensures 0 <= RemovedCost(p, size) <= p.cost
    ensures size == p.shares ==> RemovedCost(p, size) == p.cost
  {
    MulLe(0, size, p.cost);
    MulLe(size, p.shares, p.cost);
    DivGe(p.cost * size, p.shares, 0);
    DivLe(p.cost * size, p.cost * p.shares, p.shares);
    DivBracket(p.cost * p.shares, p.shares, p.cost);
  }

  lemma FilledSound(a: Account, f: Fill)
    requires Sound(a.positions) && f.slice.size > 0
    ensures Sound(Filled(a, f).positions)
    ensures !Raises(a, f) ==>
      var b := Filled(a, f);
      b.cash + TotalCost(b.positions) - b.realized
        == a.cash + TotalCost(a.positions) - a.realized - (if f.side.Buy? then f.slice.fee else 0)
  {
    var p := PositionOf(a, f.token, f.condition);
    if f.side.Sell? && 0 < p.shares && f.slice.size <= p.shares { RemovedWithin(p, f.slice.size); }
    TotalCostUpdate(a.positions, f.token, Filled(a, f).positions[f.token]);
  }

  lemma RaisedFillNeutral(a: Account, f: Fill)
    requires Raises(a, f)
    ensures TotalCost(Filled(a, f).positions) == TotalCost(a.positions)
  {
    TotalCostUpdate(a.positions, f.token, Filled(a, f).positions[f.token]);
  }

  /** After any run, cash plus total cost basis equals starting cash plus realized profit less the
      fees paid on buys, and no position is short or carries a cost without shares. */
  lemma {:induction false} AccountIdentity(start: int, ops: seq<Op>)
    requires forall op <- ops :: op.Trade? ==> op.fill.slice.size > 0
    ensures var a := AfterOps(OpenAccount(start), ops);
      && Sound(a.positions)
      && a.cash + TotalCost(a.positions) == start + a.realized - BuyFees(OpenAccount(start), ops)
  {
    if ops != [] {
      var init, last := ops[..|ops| - 1], ops[|ops| - 1];
      AccountIdentity(start, init);
      var a := AfterOps(OpenAccount(start), init);
      match last {
        case Trade(f) =>
          FilledSound(a, f);
          if Raises(a, f) { RaisedFillNeutral(a, f); }
        case Settle(c, w) =>
      }
    }
  }

  // ---- order atomicity ----------------------------------------------------------------------

  function FilledAll(a: Account, condition: int, token: Token, side: Side, plan: seq<Slice>): Account
  {
    if plan == [] then a
    else Filled(FilledAll(a, condition, token, side, plan[..|plan| - 1]),
                Fill(condition, token, side, plan[|plan| - 1]))
  }

  /** Cash and inventory after a prefix of an order whose pre-check passed. */
  lemma {:induction false} PrefixOfPlan(
    a: Account, condition: int, token: Token, side: Side, plan: seq<Slice>, n: nat)
    requires n <= |plan|
    requires forall s <- plan :: s.fee >= 0
    requires side.Buy? ==> TallyOf(plan).notional + TallyOf(plan).fee <= a.cash
    requires side.Sell? ==> TallyOf(plan).size <= Inventory(a, token)
    ensures var b, t := FilledAll(a, condition, token, side, plan[..n]), TallyOf(plan[..n]);
      && (side.Buy? ==> b.cash == a.cash - (t.notional + t.fee))
      && (side.Sell? ==> Inventory(b, token) == Inventory(a, token) - t.size)
      && (n < |plan| ==> !Raises(b, Fill(condition, token, side, plan[n])))
  {
    hide RemovedCost;
    if n > 0 {
      PrefixOfPlan(a, condition, token, side, plan, n - 1);
      assert plan[..n][..n - 1] == plan[..n - 1];
    }
    if n < |plan| {
      assert plan[..n + 1][..n] == plan[..n];
      assert plan[..n + 1] + plan[n + 1..] == plan;
      TallyConcat(plan[..n + 1], plan[n + 1..]);
      NonNegativeTally(plan[n + 1..]);
    }
  }

  lemma {:induction false} NonNegativeTally(slices: seq<Slice>)
    requires forall s <- slices :: s.fee >= 0
    ensures TallyOf(slices).size >= 0 && TallyOf(slices).notional >= 0 && TallyOf(slices).fee >= 0
  {
    if slices != [] { NonNegativeTally(slices[..|slices| - 1]); }
  }
}
