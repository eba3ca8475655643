/** Book sides as finite maps from price to size, and their best-first ladders. */
module Ladders {
  import opened FixedPoint
  import opened Market

  type BookSide = map<nat, nat>

  lemma {:induction false} HasLeast(s: set<nat>) returns (m: nat)
    requires s != {}
    ensures m in s && forall k <- s :: m <= k
    decreases |s|
  {
    var x :| x in s;
    m := x;
    var rest := s - {x};
    if rest != {} {
      var n := HasLeast(rest);
      m := if x <= n then x else n;
    }
    forall k | k in s ensures m <= k { assert k == x || k in rest; }
  }

  function Least(s: set<nat>): (m: nat)
    requires s != {}
    ensures m in s && forall k <- s :: m <= k
  {
    assert exists m :: m in s && forall k <- s :: m <= k by { var _ := HasLeast(s); }
    var m :| m in s && forall k <- s :: m <= k;
    m
  }

  lemma {:induction false} HasGreatest(s: set<nat>) returns (m: nat)
    requires s != {}
    ensures m in s && forall k <- s :: k <= m
    decreases |s|
  {
    var x :| x in s;
    m := x;
    var rest := s - {x};
    if rest != {} {
      var n := HasGreatest(rest);
      m := if n <= x then x else n;
    }
    forall k | k in s ensures k <= m { assert k == x || k in rest; }
  }

  function Greatest(s: set<nat>): (m: nat)
    requires s != {}
    ensures m in s && forall k <- s :: k <= m
  {
    assert exists m :: m in s && forall k <- s :: k <= m by { var _ := HasGreatest(s); }
    var m :| m in s && forall k <- s :: k <= m;
    m
  }

  /** The prices of a side, best first for the taker of `taker`: ascending asks, descending bids. */
  function Prices(taker: Side, s: set<nat>): (ps: seq<nat>)
    ensures forall p :: p in ps <==> p in s
    ensures forall i, j :: 0 <= i < j < |ps| ==> Better(taker, ps[i], ps[j])
    decreases |s|
  {
    if s == {} then []
    else
      var best := if taker.Buy? then Least(s) else Greatest(s);
      var rest := Prices(taker, s - {best});
      assert forall i :: 0 <= i < |rest| ==> rest[i] in rest && Better(taker, best, rest[i]);
      [best] + rest
  }

  /** The complete ladder a taker of `taker` meets on a resting side. */
  function LadderOf(taker: Side, side: BookSide): (ladder: Ladder)
    ensures BestFirst(taker, ladder)
    ensures forall l <- ladder :: l.price in side && l.size == side[l.price]
    ensures forall p <- side :: Level(p, side[p]) in ladder
  {
    var ps := Prices(taker, side.Keys);
    var ladder := seq(|ps|, i requires 0 <= i < |ps| => assert ps[i] in ps; Level(ps[i], side[ps[i]]));
    assert forall p <- side :: Level(p, side[p]) in ladder by {
      forall p | p in side ensures Level(p, side[p]) in ladder {
        assert p in ps;
        var i :| 0 <= i < |ps| && ps[i] == p;
        assert ladder[i] == Level(p, side[p]);
      }
    }
    ladder
  }

  /** Simulated consumption recorded at one price. */
  function TakenAt(taken: BookSide, price: nat): nat
  {
    if price in taken then taken[price] else 0
  }

  /** A ladder minus simulated consumption; exhausted levels disappear. */
  function Net(ladder: Ladder, taken: BookSide): Ladder
  {
    if ladder == [] then []
    else
      var left := ladder[0].size - TakenAt(taken, ladder[0].price);
      if left > 0 then [Level(ladder[0].price, left)] + Net(ladder[1..], taken)
      else Net(ladder[1..], taken)
  }

  /** Every net level is a displayed level, reduced by what was taken there. */
  lemma {:induction false} NetMember(ladder: Ladder, taken: BookSide, l: Level)
    requires l in Net(ladder, taken)
    ensures l.size > 0 && Level(l.price, l.size + TakenAt(taken, l.price)) in ladder
  {
    var head := ladder[0];
    var left := head.size - TakenAt(taken, head.price);
    if left > 0 && l == Level(head.price, left) {
      assert head in ladder;
    } else {
      NetMember(ladder[1..], taken, l);
    }
  }

  /** And every displayed level is there, with whatever is left of it. */
  lemma {:induction false} NetExactly(ladder: Ladder, taken: BookSide, l: Level)
    ensures l in Net(ladder, taken) <==> l.size > 0 && Level(l.price, l.size + TakenAt(taken, l.price)) in ladder
  {
    if l in Net(ladder, taken) { NetMember(ladder, taken, l); }
    if ladder != [] { NetExactly(ladder[1..], taken, l); }
  }

  lemma {:induction false} NetKeepsOrder(side: Side, ladder: Ladder, taken: BookSide)
    requires BestFirst(side, ladder)
    ensures BestFirst(side, Net(ladder, taken))
  {
    if ladder != [] {
      var head, tail := ladder[0], ladder[1..];
      NetKeepsOrder(side, tail, taken);
      forall l | l in Net(tail, taken) ensures Better(side, head.price, l.price) {
        NetMember(tail, taken, l);
        var j :| 0 <= j < |tail| && tail[j] == Level(l.price, l.size + TakenAt(taken, l.price));
        assert tail[j] == ladder[j + 1];
      }
    }
  }

  lemma NetPositive(ladder: Ladder, taken: BookSide)
    requires Positive(ladder)
    ensures Positive(Net(ladder, taken))
  {
  }

  /** With nothing taken the ladder is unchanged. */
  lemma {:induction false} NetOfNothing(ladder: Ladder, taken: BookSide)
    requires forall p <- taken :: taken[p] == 0
    requires forall l <- ladder :: l.size > 0
    ensures Net(ladder, taken) == ladder
  {
    if ladder != [] {
      assert ladder[0] in ladder;
      NetOfNothing(ladder[1..], taken);
    }
  }

  /** Folds one more consumption into the record at a price. */
  function Take(taken: BookSide, price: nat, size: nat): BookSide
  {
    taken[price := TakenAt(taken, price) + size]
  }

  /** Folds a whole fill into the record, slice by slice. */
  function TakeAll(taken: BookSide, slices: seq<Slice>): BookSide
  {
    if slices == [] then taken
    else
      var s := slices[|slices| - 1];
      Take(TakeAll(taken, slices[..|slices| - 1]), s.price, s.size)
  }

  /** Consumption never exceeds what the side displays. */
  ghost predicate Covered(side: BookSide, taken: BookSide)
  {
    forall p <- side :: TakenAt(taken, p) <= side[p]
  }

  /** A fill that takes at most the net size of each level, at distinct prices. */
  ghost predicate Takes(net: Ladder, slices: seq<Slice>)
  {
    && (forall i, j :: 0 <= i < j < |slices| ==> slices[i].price != slices[j].price)
    && forall s <- slices :: exists l <- net :: l.price == s.price && s.size <= l.size
  }

  lemma {:induction false} TakeAllAt(taken: BookSide, slices: seq<Slice>, price: nat)
    requires forall i, j :: 0 <= i < j < |slices| ==> slices[i].price != slices[j].price
    ensures (forall s <- slices :: s.price != price) ==> TakenAt(TakeAll(taken, slices), price) == TakenAt(taken, price)
    ensures forall s <- slices :: s.price == price ==>
      TakenAt(TakeAll(taken, slices), price) == TakenAt(taken, price) + s.size
  {
    if slices != [] {
      TakeAllAt(taken, slices[..|slices| - 1], price);
    }
  }

  /** Taking from the net ladder keeps consumption within the displayed size at every price. */
  lemma TakingStaysCovered(taker: Side, side: BookSide, taken: BookSide, slices: seq<Slice>)
    requires Covered(side, taken) && Takes(Net(LadderOf(taker, side), taken), slices)
    ensures Covered(side, TakeAll(taken, slices))
  {
    forall p | p in side ensures TakenAt(TakeAll(taken, slices), p) <= side[p] {
      TakeAllAt(taken, slices, p);
      if s :| s in slices && s.price == p {
        var net := Net(LadderOf(taker, side), taken);
        var l :| l in net && l.price == s.price && s.size <= l.size;
        NetMember(LadderOf(taker, side), taken, l);
      }
    }
  }
}
