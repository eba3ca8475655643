/** One outcome token's reconstructed book, with simulated consumption kept as an overlay. */
module Books {
  import opened FixedPoint
  import opened Market
  import opened Ladders

  /** A level as the feed reports it, before validation. */
  datatype RawLevel = RawLevel(price: int, size: int)

  datatype Snapshot = Snapshot(
    condition: int, outcome: int, sequence: int, fromRest: bool,
    tick: int, minimum: int, bids: seq<RawLevel>, asks: seq<RawLevel>)

  /** An absolute-size update; `side` is `Buy` for the bids. */
  datatype Change = Change(
    condition: int, sequence: int, side: Side, price: int, newSize: int,
    reportedBid: Option<int>, reportedAsk: Option<int>)

  datatype Book = Book(
    condition: int, outcome: int, bids: BookSide, asks: BookSide,
    takenBids: BookSide, takenAsks: BookSide,
    tick: int, minimum: int, lastSequence: int, valid: bool)

  function EmptyBook(condition: int, outcome: int): Book
  {
    Book(condition, outcome, map[], map[], map[], map[], 10_000, 0, 0, false)
  }

  /** How an event ended: applied, ignored because it is older than the book, or raised. */
  datatype Verdict = Applied | Stale | Raised

  predicate LevelIssue(price: int, size: int, tick: int)
  {
    !(0 < price < SCALE) || size < 0 || tick <= 0 || price % tick != 0
  }

  predicate Crossed(bids: BookSide, asks: BookSide)
  {
    bids.Keys != {} && asks.Keys != {} && Greatest(bids.Keys) >= Least(asks.Keys)
  }

  // ---- snapshot replacement -----------------------------------------------------------------

  /** A side under construction. Levels with an issue are not recorded: any issue discards the side. */
  datatype Building = Building(side: BookSide, issue: bool)

  function AddLevel(b: Building, l: RawLevel, tick: int): Building
  {
    if LevelIssue(l.price, l.size, tick) then b.(issue := true)
    else Building(
      if l.size > 0 then b.side[l.price := l.size] else b.side,
      b.issue || l.price in b.side)
  }

  function BuildSide(levels: seq<RawLevel>, tick: int): Building
  {
    if levels == [] then Building(map[], false)
    else AddLevel(BuildSide(levels[..|levels| - 1], tick), levels[|levels| - 1], tick)
  }

  function Replaced(b: Book, s: Snapshot): (Book, Verdict)
  {
    if s.condition != b.condition then (b, Raised)
    else if s.sequence < b.lastSequence then (b, Stale)
    else
      var bids, asks := BuildSide(s.bids, s.tick), BuildSide(s.asks, s.tick);
      if bids.issue || asks.issue || Crossed(bids.side, asks.side) then (b.(valid := false), Raised)
      else (Book(b.condition, b.outcome, bids.side, asks.side, map[], map[],
                 s.tick, s.minimum, s.sequence, true), Applied)
  }

  // ---- absolute-size updates ----------------------------------------------------------------

  function SetLevel(side: BookSide, price: nat, size: nat): BookSide
  {
    if size == 0 then side - {price} else side[price := size]
  }

  /** Bids the source's reported best bid declares gone; zero reports an empty side. */
  function PruneBids(bids: BookSide, reported: Option<int>): BookSide
  {
    if reported.None? then bids
    else map p | p in bids && reported.value != 0 && p <= reported.value :: bids[p]
  }

  function PruneAsks(asks: BookSide, reported: Option<int>): BookSide
  {
    if reported.None? then asks
    else map p | p in asks && reported.value != SCALE && reported.value <= p :: asks[p]
  }

  /** The local top equals the reported one, where one is reported. */
  predicate TopMatches(bids: BookSide, asks: BookSide, reportedBid: Option<int>, reportedAsk: Option<int>)
  {
    && (reportedBid.Some? ==>
          if reportedBid.value == 0 then bids.Keys == {}
          else bids.Keys != {} && Greatest(bids.Keys) == reportedBid.value)
    && (reportedAsk.Some? ==>
          if reportedAsk.value == SCALE then asks.Keys == {}
          else asks.Keys != {} && Least(asks.Keys) == reportedAsk.value)
  }

  /** The book after an update has been written to its sides, before the final checks. */
  function Written(b: Book, c: Change): Book
    requires !LevelIssue(c.price, c.newSize, b.tick)
  {
    var bids := if c.side.Buy? then SetLevel(b.bids, c.price, c.newSize) else b.bids;
    var asks := if c.side.Sell? then SetLevel(b.asks, c.price, c.newSize) else b.asks;
    b.(bids := PruneBids(bids, c.reportedBid), asks := PruneAsks(asks, c.reportedAsk),
       takenBids := if c.side.Buy? then b.takenBids - {c.price as nat} else b.takenBids,
       takenAsks := if c.side.Sell? then b.takenAsks - {c.price as nat} else b.takenAsks)
  }

  function Updated(b: Book, c: Change): (Book, Verdict)
  {
    if c.condition != b.condition then (b, Raised)
    else if c.sequence < b.lastSequence then (b, Stale)
    else if LevelIssue(c.price, c.newSize, b.tick) then (b.(valid := false), Raised)
    else
      var w := Written(b, c);
      if Crossed(w.bids, w.asks) || !TopMatches(w.bids, w.asks, c.reportedBid, c.reportedAsk)
      then (w.(valid := false), Raised)
      else (w.(lastSequence := c.sequence, valid := true), Applied)
  }

  // ---- simulated consumption ----------------------------------------------------------------

  /** Displayed levels minus simulated consumption, as the taker of `taker` meets them. */
  function Available(b: Book, taker: Side): Ladder
  {
    if taker.Buy? then Net(LadderOf(Buy, b.asks), b.takenAsks)
    else Net(LadderOf(Sell, b.bids), b.takenBids)
  }

  function Consumed(b: Book, taker: Side, slices: seq<Slice>): Book
  {
    if taker.Buy? then b.(takenAsks := TakeAll(b.takenAsks, slices))
    else b.(takenBids := TakeAll(b.takenBids, slices))
  }

  /** The mutable book of the reference simulator. */
  class OrderBook {
    const condition: int
    const outcome: int
    var bids: BookSide
    var asks: BookSide
    var takenBids: BookSide
    var takenAsks: BookSide
    var tick: int
    var minimum: int
    var lastSequence: int
    var valid: bool

    constructor (condition: int, outcome: int)
      ensures State() == EmptyBook(condition, outcome)
    {
      this.condition, this.outcome := condition, outcome;
      bids, asks, takenBids, takenAsks := map[], map[], map[], map[];
      tick, minimum, lastSequence, valid := 10_000, 0, 0, false;
    }

    function State(): Book
      reads this
    {
      Book(condition, outcome, bids, asks, takenBids, takenAsks, tick, minimum, lastSequence, valid)
    }

    static method BuildLevels(levels: seq<RawLevel>, tick: int) returns (built: Building)
      ensures built == BuildSide(levels, tick)
    {
      built := Building(map[], false);
      for i := 0 to |levels|
        invariant built == BuildSide(levels[..i], tick)
      {
        assert levels[..i + 1][..i] == levels[..i];
        built := AddLevel(built, levels[i], tick);
      }
      assert levels[..|levels|] == levels;
    }

    method Replace(s: Snapshot) returns (verdict: Verdict)
      modifies this
      ensures (State(), verdict) == Replaced(old(State()), s)
    {
      if s.condition != condition {
        return Raised;
      }
      if s.sequence < lastSequence {
        return Stale;
      }
      var newBids := BuildLevels(s.bids, s.tick);
      var newAsks := BuildLevels(s.asks, s.tick);
      if newBids.issue || newAsks.issue || Crossed(newBids.side, newAsks.side) {
        valid := false;
        return Raised;
      }
      bids, asks := newBids.side, newAsks.side;
      takenBids, takenAsks := map[], map[];
      tick, minimum, lastSequence, valid := s.tick, s.minimum, s.sequence, true;
      return Applied;
    }

    /** Removes the listed prices from a side one at a time. */
    static method Remove(side: BookSide, prices: seq<nat>) returns (left: BookSide)
      ensures left == map p | p in side && p !in prices :: side[p]
    {
      left := side;
      for i := 0 to |prices|
        invariant left == map p | p in side && p !in prices[..i] :: side[p]
      {
        left := left - {prices[i]};
      }
      assert prices[..|prices|] == prices;
    }

    static method PruneBidSide(bids: BookSide, reported: Option<int>) returns (left: BookSide)
      ensures left == PruneBids(bids, reported)
    {
      if reported.None? {
        return bids;
      }
      var gone := Prices(Sell, set p | p in bids && (reported.value == 0 || p > reported.value));
      left := Remove(bids, gone);
    }

    static method PruneAskSide(asks: BookSide, reported: Option<int>) returns (left: BookSide)
      ensures left == PruneAsks(asks, reported)
    {
      if reported.None? {
        return asks;
      }
      var gone := Prices(Buy, set p | p in asks && (reported.value == SCALE || p < reported.value));
      left := Remove(asks, gone);
    }

    method Apply(c: Change) returns (verdict: Verdict)
      modifies this
      ensures (State(), verdict) == Updated(old(State()), c)
    {
      if c.condition != condition {
        return Raised;
      }
      if c.sequence < lastSequence {
        return Stale;
      }
      if LevelIssue(c.price, c.newSize, tick) {
        valid := false;
        return Raised;
      }
      if c.side.Buy? {
        takenBids := takenBids - {c.price as nat};
        bids := SetLevel(bids, c.price, c.newSize);
      } else {
        takenAsks := takenAsks - {c.price as nat};
        asks := SetLevel(asks, c.price, c.newSize);
      }
      bids := PruneBidSide(bids, c.reportedBid);
      asks := PruneAskSide(asks, c.reportedAsk);
      assert State() == Written(old(State()), c);
      if Crossed(bids, asks) || !TopMatches(bids, asks, c.reportedBid, c.reportedAsk) {
        valid := false;
        return Raised;
      }
      lastSequence, valid := c.sequence, true;
      return Applied;
    }

    /** Records displayed size taken by one simulated fill. */
    method Consume(taker: Side, slice: Slice)
      modifies this`takenBids, this`takenAsks
      ensures State() == Consumed(old(State()), taker, [slice])
    {
      assert [slice][..|[slice]| - 1] == [];
      assert forall t: BookSide :: TakeAll(t, [slice]) == Take(TakeAll(t, []), slice.price, slice.size);
      if taker.Buy? {
        takenAsks := Take(takenAsks, slice.price, slice.size);
      } else {
        takenBids := Take(takenBids, slice.price, slice.size);
      }
    }
  }

  // ---- what every run keeps -----------------------------------------------------------------

  ghost predicate LevelsOk(side: BookSide)
  {
    forall p <- side :: 0 < p < SCALE && side[p] > 0
  }

  /** Levels are priced inside (0, 1) with positive size, consumption is covered by the displayed
      size, and a valid book is not crossed. */
  ghost predicate Sound(b: Book)
  {
    && LevelsOk(b.bids) && LevelsOk(b.asks)
    && Covered(b.bids, b.takenBids) && Covered(b.asks, b.takenAsks)
    && (b.valid ==> !Crossed(b.bids, b.asks))
  }

  lemma {:induction false} BuildSideOk(levels: seq<RawLevel>, tick: int)
    ensures LevelsOk(BuildSide(levels, tick).side)
  {
    if levels != [] { BuildSideOk(levels[..|levels| - 1], tick); }
  }

  lemma ReplacedSound(b: Book, s: Snapshot)
    requires Sound(b)
    ensures Sound(Replaced(b, s).0)
  {
    BuildSideOk(s.bids, s.tick);
    BuildSideOk(s.asks, s.tick);
  }

  /** Restating one level and dropping others keeps a side well formed and its consumption covered:
      the restated price forgets its consumption, and a price that returns is always a restated one. */
  lemma SideKept(side: BookSide, taken: BookSide, price: nat, size: nat, kept: BookSide)
    requires LevelsOk(side) && Covered(side, taken) && 0 < price < SCALE
    requires forall p <- kept :: p in SetLevel(side, price, size) && kept[p] == SetLevel(side, price, size)[p]
    ensures LevelsOk(kept) && Covered(kept, taken - {price})
  {
  }

  lemma SubsideKept(side: BookSide, taken: BookSide, kept: BookSide)
    requires LevelsOk(side) && Covered(side, taken)
    requires forall p <- kept :: p in side && kept[p] == side[p]
    ensures LevelsOk(kept) && Covered(kept, taken)
  {
  }

  lemma WrittenKept(b: Book, c: Change)
    requires Sound(b) && !LevelIssue(c.price, c.newSize, b.tick)
    ensures var w := Written(b, c);
      LevelsOk(w.bids) && LevelsOk(w.asks) && Covered(w.bids, w.takenBids) && Covered(w.asks, w.takenAsks)
  {
    var w := Written(b, c);
    if c.side.Buy? {
      SideKept(b.bids, b.takenBids, c.price, c.newSize, w.bids);
      SubsideKept(b.asks, b.takenAsks, w.asks);
    } else {
      SubsideKept(b.bids, b.takenBids, w.bids);
      SideKept(b.asks, b.takenAsks, c.price, c.newSize, w.asks);
    }
  }

  lemma UpdatedSound(b: Book, c: Change)
    requires Sound(b)
    ensures Sound(Updated(b, c).0)
  {
    if !LevelIssue(c.price, c.newSize, b.tick) { WrittenKept(b, c); }
  }

  /** Everything that can happen to a book during a replay. */
  datatype Op =
    | Load(snapshot: Snapshot)
    | Update(change: Change)
    | SetTick(tick: int)
    | Invalidate
    | Fill(taker: Side, slices: seq<Slice>)

  /** A book together with the top reported by the last update it accepted. */
  datatype Tracked = Tracked(book: Book, reportedBid: Option<int>, reportedAsk: Option<int>)

  function After(t: Tracked, op: Op): Tracked
  {
    match op
    case Load(s) =>
      var (b, v) := Replaced(t.book, s);
      if v.Applied? then Tracked(b, None, None) else t.(book := b)
    case Update(c) =>
      var (b, v) := Updated(t.book, c);
      if v.Applied? then Tracked(b, c.reportedBid, c.reportedAsk) else t.(book := b)
    case SetTick(tick) => t.(book := t.book.(tick := tick))
    case Invalidate => t.(book := t.book.(valid := false))
    case Fill(taker, slices) => t.(book := Consumed(t.book, taker, slices))
  }

  function AfterAll(t: Tracked, ops: seq<Op>): Tracked
  {
    if ops == [] then t else After(AfterAll(t, ops[..|ops| - 1]), ops[|ops| - 1])
  }

  /** Fills only ever take from the ladder that is available when they happen. */
  ghost predicate FillsFit(t: Tracked, ops: seq<Op>)
  {
    forall i :: 0 <= i < |ops| && ops[i].Fill? ==>
      Takes(Available(AfterAll(t, ops[..i]).book, ops[i].taker), ops[i].slices)
  }

  ghost predicate Kept(t: Tracked)
  {
    Sound(t.book) &&
    (t.book.valid ==> TopMatches(t.book.bids, t.book.asks, t.reportedBid, t.reportedAsk))
  }

  lemma AfterKept(t: Tracked, op: Op)
    requires Kept(t)
    requires op.Fill? ==> Takes(Available(t.book, op.taker), op.slices)
    ensures Kept(After(t, op))
  {
    match op
    case Load(s) => ReplacedSound(t.book, s);
    case Update(c) => UpdatedSound(t.book, c);
    case SetTick(_) =>
    case Invalidate =>
    case Fill(taker, slices) =>
      if taker.Buy? {
        TakingStaysCovered(Buy, t.book.asks, t.book.takenAsks, slices);
      } else {
        TakingStaysCovered(Sell, t.book.bids, t.book.takenBids, slices);
      }
  }

  /** Over every run from an empty book: levels stay inside (0, 1) with positive size, a valid book is
      uncrossed and shows the top its last accepted update reported, and simulated consumption never
      exceeds the displayed size at a displayed price. */
  lemma {:induction false} EveryRunKept(condition: int, outcome: int, ops: seq<Op>)
    requires FillsFit(Tracked(EmptyBook(condition, outcome), None, None), ops)
    ensures Kept(AfterAll(Tracked(EmptyBook(condition, outcome), None, None), ops))
  {
    var t0 := Tracked(EmptyBook(condition, outcome), None, None);
    if ops != [] {
      var init := ops[..|ops| - 1];
      forall i | 0 <= i < |init| && init[i].Fill?
        ensures Takes(Available(AfterAll(t0, init[..i]).book, init[i].taker), init[i].slices)
      {
        assert init[..i] == ops[..i];
      }
      EveryRunKept(condition, outcome, init);
      assert ops[..|ops| - 1] == init;
      AfterKept(AfterAll(t0, init), ops[|ops| - 1]);
    }
  }
}
