/** What a snapshot and an update make of a book, level by level. */
module BookRules {
  import opened FixedPoint
  import opened Market
  import opened Ladders
  import opened Books

  /** Size displayed at a price; nothing where there is no level. */
  function SizeAt(side: BookSide, price: nat): nat { if price in side then side[price] else 0 }

  /** A level of a positive size at a price on the tick grid inside (0, 1), or one of no size there. */
  predicate OnGrid(price: int, size: int, tick: int)
  {
    0 < price < SCALE && size >= 0 && tick > 0 && price % tick == 0
  }

  /** Every bid is below every ask. */
  ghost predicate Uncrossed(b: Book)
  {
    forall p, q :: p in b.bids && q in b.asks ==> p < q
  }

  /** `top` is the best price of a side; `none` stands for a side without levels. */
  ghost predicate IsTop(side: BookSide, taker: Side, top: int, none: int)
  {
    if top == none then forall p: nat :: p !in side
    else top >= 0 && (top as nat) in side && forall p <- side :: !Better(taker, p, top)
  }

  /** The book shows the tops that came with an update, where any did. */
  ghost predicate ShowsTops(b: Book, reportedBid: Option<int>, reportedAsk: Option<int>)
  {
    && (reportedBid.Some? ==> IsTop(b.bids, Sell, reportedBid.value, 0))
    && (reportedAsk.Some? ==> IsTop(b.asks, Buy, reportedAsk.value, SCALE))
  }

  /** Whether a reported top says that there is no level at a price. */
  predicate Denied(taker: Side, reported: Option<int>, price: nat)
  {
    && reported.Some?
    && if taker.Sell? then reported.value == 0 || price > reported.value
       else reported.value == SCALE || price < reported.value
  }

  /** The sides after an update: the price it names shows the size it gives, prices the reported top denies show nothing,
      and every other price is as before. Simulated consumption is forgotten at the price it names, and only there. */
  ghost predicate Restated(b: Book, c: Change, w: Book)
    requires c.price >= 0 && c.newSize >= 0
  {
    && (forall p: nat :: SizeAt(w.bids, p) ==
          if Denied(Sell, c.reportedBid, p) then 0
          else if c.side.Buy? && p == c.price then c.newSize else SizeAt(b.bids, p))
    && (forall p: nat :: SizeAt(w.asks, p) ==
          if Denied(Buy, c.reportedAsk, p) then 0
          else if c.side.Sell? && p == c.price then c.newSize else SizeAt(b.asks, p))
    && (forall p: nat :: TakenAt(w.takenBids, p) == if c.side.Buy? && p == c.price then 0 else TakenAt(b.takenBids, p))
    && (forall p: nat :: TakenAt(w.takenAsks, p) == if c.side.Sell? && p == c.price then 0 else TakenAt(b.takenAsks, p))
    && w.condition == b.condition && w.outcome == b.outcome && w.tick == b.tick && w.minimum == b.minimum
  }

  /** What an update does. It is refused when it names another market, ignored when it is older than the book, and
      otherwise written to the book, which ends valid exactly when it is uncrossed and shows the reported tops; a level off
      the grid is not written and ends the book's validity. */
  ghost predicate UpdateRule(b: Book, c: Change, w: Book, v: Verdict)
  {
    if c.condition != b.condition then v.Raised? && w == b
    else if c.sequence < b.lastSequence then v.Stale? && w == b
    else if !OnGrid(c.price, c.newSize, b.tick) then v.Raised? && w == b.(valid := false)
    else
      && Restated(b, c, w)
      && (v.Applied? <==> Uncrossed(w) && ShowsTops(w, c.reportedBid, c.reportedAsk))
      && (if v.Applied? then w.valid && w.lastSequence == c.sequence
          else v.Raised? && !w.valid && w.lastSequence == b.lastSequence)
  }

  lemma CrossedIsPointwise(b: Book)
    ensures Crossed(b.bids, b.asks) <==> !Uncrossed(b)
  {
    if b.bids.Keys != {} && b.asks.Keys != {} {
      assert Greatest(b.bids.Keys) in b.bids && Least(b.asks.Keys) in b.asks;
    }
  }

  lemma TopsArePointwise(b: Book, bid: Option<int>, ask: Option<int>)
    ensures TopMatches(b.bids, b.asks, bid, ask) <==> ShowsTops(b, bid, ask)
  {
    if bid.Some? && b.bids.Keys != {} { assert Greatest(b.bids.Keys) in b.bids; }
    if ask.Some? && b.asks.Keys != {} { assert Least(b.asks.Keys) in b.asks; }
    assert b.bids.Keys == {} <==> forall p: nat :: p !in b.bids;
    assert b.asks.Keys == {} <==> forall p: nat :: p !in b.asks;
  }

  lemma WrittenRestates(b: Book, c: Change)
    requires OnGrid(c.price, c.newSize, b.tick)
    ensures Restated(b, c, Written(b, c))
  {
  }

  /** An update follows its rule, whatever the book was. */
  lemma UpdatedByRule(b: Book, c: Change)
    ensures UpdateRule(b, c, Updated(b, c).0, Updated(b, c).1)
  {
    hide Crossed, TopMatches, ShowsTops, Uncrossed, Written, Restated;
    if c.condition == b.condition && c.sequence >= b.lastSequence && OnGrid(c.price, c.newSize, b.tick) {
      var w := Written(b, c);
      WrittenRestates(b, c);
      CrossedIsPointwise(w);
      TopsArePointwise(w, c.reportedBid, c.reportedAsk);
      SameSides(w, Updated(b, c).0, c.reportedBid, c.reportedAsk);
      SameRestated(b, c, w, c.sequence);
      WrittenKeeps(b, c);
    }
  }

  lemma SameRestated(b: Book, c: Change, w: Book, sequence: int)
    requires c.price >= 0 && c.newSize >= 0 && Restated(b, c, w)
    ensures Restated(b, c, w.(valid := false)) && Restated(b, c, w.(lastSequence := sequence, valid := true))
  {
  }

  lemma WrittenKeeps(b: Book, c: Change)
    requires OnGrid(c.price, c.newSize, b.tick)
    ensures Written(b, c).lastSequence == b.lastSequence
  {
  }

  lemma SameSides(w: Book, x: Book, bid: Option<int>, ask: Option<int>)
    requires x.bids == w.bids && x.asks == w.asks
    ensures Uncrossed(x) == Uncrossed(w) && ShowsTops(x, bid, ask) == ShowsTops(w, bid, ask)
  {
  }

  // ---- snapshots ----------------------------------------------------------------------------

  /** Levels a snapshot may carry: all on the grid, and none after a level of positive size at the same price. */
  ghost predicate Loadable(levels: seq<RawLevel>, tick: int)
  {
    && (forall l <- levels :: OnGrid(l.price, l.size, tick))
    && forall i, j :: 0 <= i < j < |levels| && levels[i].size > 0 ==> levels[i].price != levels[j].price
  }

  /** A side shows exactly the levels of positive size. */
  ghost predicate Loads(levels: seq<RawLevel>, side: BookSide)
  {
    && (forall l <- levels :: l.size > 0 ==> l.price >= 0 && SizeAt(side, l.price) == l.size)
    && (forall p: nat :: p in side ==> exists l <- levels :: l.price == p && l.size > 0)
  }

  /** What a snapshot does. It is refused for another market, ignored when older than the book, and otherwise replaces
      both sides and forgets all consumption, provided its levels may be loaded and do not cross; if not, the book keeps
      its levels and stops being valid. */
  ghost predicate SnapshotRule(b: Book, s: Snapshot, w: Book, v: Verdict)
  {
    if s.condition != b.condition then v.Raised? && w == b
    else if s.sequence < b.lastSequence then v.Stale? && w == b
    else if v.Applied? then
      && Loadable(s.bids, s.tick) && Loadable(s.asks, s.tick) && Uncrossed(w)
      && Loads(s.bids, w.bids) && Loads(s.asks, w.asks) && w.takenBids == map[] && w.takenAsks == map[]
      && w.condition == b.condition && w.outcome == b.outcome && w.valid
      && w.tick == s.tick && w.minimum == s.minimum && w.lastSequence == s.sequence
    else
      && v.Raised? && w == b.(valid := false)
      && (Loadable(s.bids, s.tick) && Loadable(s.asks, s.tick) ==>
            exists l, m :: l in s.bids && m in s.asks && l.size > 0 && m.size > 0 && l.price >= m.price)
  }

  lemma {:induction false} BuildByRule(levels: seq<RawLevel>, tick: int)
    ensures BuildSide(levels, tick).issue <==> !Loadable(levels, tick)
    ensures Loadable(levels, tick) ==> Loads(levels, BuildSide(levels, tick).side)
  {
    if levels != [] {
      var init, l := levels[..|levels| - 1], levels[|levels| - 1];
      BuildByRule(init, tick);
      LoadableOneMore(init, l, tick);
      assert levels == init + [l];
      if Loadable(levels, tick) { LoadsOneMore(init, l, BuildSide(init, tick).side, BuildSide(levels, tick).side); }
    }
  }

  lemma LoadableOneMore(levels: seq<RawLevel>, l: RawLevel, tick: int)
    ensures Loadable(levels + [l], tick) <==>
      && Loadable(levels, tick) && OnGrid(l.price, l.size, tick)
      && forall m <- levels :: m.size > 0 ==> m.price != l.price
  {
    var n, all := |levels|, levels + [l];
    assert forall i :: 0 <= i < n ==> all[i] == levels[i];
    assert all[n] == l;
    if Loadable(all, tick) {
      forall m | m in levels ensures m.size > 0 ==> m.price != l.price {
        var i :| 0 <= i < n && levels[i] == m;
        assert all[i] == m;
      }
      forall m | m in levels ensures OnGrid(m.price, m.size, tick) { assert m in all; }
      assert l in all;
    }
  }

  lemma LoadsOneMore(levels: seq<RawLevel>, l: RawLevel, before: BookSide, after: BookSide)
    requires Loads(levels, before) && l.price >= 0 && l.size >= 0
    requires forall m <- levels :: m.size > 0 ==> m.price != l.price
    requires after == if l.size > 0 then before[l.price as nat := l.size as nat] else before
    ensures Loads(levels + [l], after)
  {
    var all := levels + [l];
    assert l in all && forall m <- levels :: m in all;
    forall m | m in all && m.size > 0 ensures m.price >= 0 && SizeAt(after, m.price) == m.size {
      if m != l { assert m in levels; }
    }
    forall p: nat | p in after ensures exists m <- all :: m.price == p && m.size > 0 {
      if p in before {
        var m :| m in levels && m.price == p && m.size > 0;
        assert m in all;
      }
    }
  }

  /** Loaded sides cross exactly when two loaded levels do. */
  lemma CrossedLevels(bids: seq<RawLevel>, asks: seq<RawLevel>, b: Book)
    requires Loads(bids, b.bids) && Loads(asks, b.asks)
    ensures !Uncrossed(b) ==> exists l, m :: l in bids && m in asks && l.size > 0 && m.size > 0 && l.price >= m.price
  {
    if !Uncrossed(b) {
      var p, q :| p in b.bids && q in b.asks && p >= q;
      var l :| l in bids && l.price == p && l.size > 0;
      var m :| m in asks && m.price == q && m.size > 0;
    }
  }

  /** A snapshot follows its rule, whatever the book was. */
  lemma ReplacedByRule(b: Book, s: Snapshot)
    ensures SnapshotRule(b, s, Replaced(b, s).0, Replaced(b, s).1)
  {
    hide Crossed, Uncrossed, Loadable, Loads, BuildSide;
    BuildByRule(s.bids, s.tick);
    BuildByRule(s.asks, s.tick);
    var w := b.(bids := BuildSide(s.bids, s.tick).side, asks := BuildSide(s.asks, s.tick).side);
    CrossedIsPointwise(w);
    if Loadable(s.bids, s.tick) && Loadable(s.asks, s.tick) { CrossedLevels(s.bids, s.asks, w); }
    if Replaced(b, s).1.Applied? { SameSides(w, Replaced(b, s).0, None, None); }
  }
}
