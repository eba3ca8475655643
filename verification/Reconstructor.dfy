/** Reconstruction of every token's book from the recorded feed. */
module Reconstruction {
  import opened FixedPoint
  import opened Market
  import opened Ladders
  import opened Books

  type Token = nat

  datatype Feed =
    | SnapshotFeed(snapshot: Snapshot)
    | TickFeed(condition: int, newTick: int)
    | ChangeFeed(change: Change)

  datatype Event = Event(token: Token, time: int, feed: Feed)

  /** What is known about one token: its book, once registered, and its effective tick size. */
  datatype View = View(book: Option<Book>, tick: Option<int>)

  const UNSEEN: View := View(None, None)

  /** The snapshot with the tick size that is in force: an explicit tick event outlives the fallback
      carried by later socket snapshots, a REST snapshot restates it. */
  function WithEffectiveTick(v: View, s: Snapshot): Snapshot
  {
    if s.fromRest || v.tick.None? then s else s.(tick := v.tick.value)
  }

  function Loaded(v: View, s: Snapshot): (View, Verdict)
  {
    var s' := WithEffectiveTick(v, s);
    var known := v.(tick := Some(s'.tick));
    if v.book.Some? && (v.book.value.condition != s.condition || v.book.value.outcome != s.outcome)
    then (known, Raised)
    else
      var book := if v.book.Some? then v.book.value else EmptyBook(s.condition, s.outcome);
      var (after, verdict) := Replaced(book, s');
      (known.(book := Some(after)), verdict)
  }

  function Ticked(v: View, condition: int, newTick: int): (View, Verdict)
  {
    if newTick <= 0 then (v, Raised)
    else if v.book.None? then (v.(tick := Some(newTick)), Applied)
    else if v.book.value.condition != condition then (v.(tick := Some(newTick)), Raised)
    else (View(Some(v.book.value.(tick := newTick)), Some(newTick)), Applied)
  }

  function Changed(v: View, c: Change): (View, Verdict)
  {
    if v.book.None? || !v.book.value.valid then (v, Raised)
    else
      var (after, verdict) := Updated(v.book.value, c);
      (v.(book := Some(after)), verdict)
  }

  function Fed(v: View, f: Feed): (View, Verdict)
  {
    match f
    case SnapshotFeed(s) => Loaded(v, s)
    case TickFeed(c, t) => Ticked(v, c, t)
    case ChangeFeed(c) => Changed(v, c)
  }

  /** No event of the feed, accepted or refused, leaves an unsound book. */
  lemma FedSound(v: View, f: Feed)
    requires v.book.Some? ==> Sound(v.book.value)
    ensures Fed(v, f).0.book.Some? ==> Sound(Fed(v, f).0.book.value)
  {
    match f
    case SnapshotFeed(s) =>
      ReplacedSound(if v.book.Some? then v.book.value else EmptyBook(s.condition, s.outcome), WithEffectiveTick(v, s));
    case TickFeed(c, t) =>
    case ChangeFeed(c) => if v.book.Some? { UpdatedSound(v.book.value, c); }
  }

  /** The reconstructor object: one book per registered token. */
  class BookReconstructor {
    var books: map<Token, Book>
    var ticks: map<Token, int>

    constructor ()
      ensures forall t: Token :: ViewOf(t) == UNSEEN
    {
      books, ticks := map[], map[];
    }

    function ViewOf(t: Token): View
      reads this
    {
      View(if t in books then Some(books[t]) else None, if t in ticks then Some(ticks[t]) else None)
    }

    method Register(t: Token, condition: int, outcome: int) returns (raised: bool)
      modifies this`books
      ensures raised == (t in old(books) &&
        (old(books)[t].condition != condition || old(books)[t].outcome != outcome))
      ensures books == if t in old(books) then old(books) else old(books)[t := EmptyBook(condition, outcome)]
    {
      if t in books {
        return books[t].condition != condition || books[t].outcome != outcome;
      }
      books := books[t := EmptyBook(condition, outcome)];
      return false;
    }

    method ApplySnapshot(t: Token, s: Snapshot) returns (verdict: Verdict)
      modifies this
      ensures (ViewOf(t), verdict) == Loaded(old(ViewOf(t)), s)
      ensures forall u: Token :: u != t ==> ViewOf(u) == old(ViewOf(u))
    {
      var s' := s;
      if s.fromRest || t !in ticks {
        ticks := ticks[t := s.tick];
      } else if s.tick != ticks[t] {
        s' := s.(tick := ticks[t]);
      }
      var raised := Register(t, s'.condition, s'.outcome);
      if raised {
        return Raised;
      }
      var (after, v) := Replaced(books[t], s');
      books := books[t := after];
      return v;
    }

    method ApplyTickSizeChange(t: Token, condition: int, newTick: int) returns (verdict: Verdict)
      modifies this
      ensures (ViewOf(t), verdict) == Ticked(old(ViewOf(t)), condition, newTick)
      ensures forall u: Token :: u != t ==> ViewOf(u) == old(ViewOf(u))
    {
      if newTick <= 0 {
        return Raised;
      }
      ticks := ticks[t := newTick];
      if t !in books {
        return Applied;
      }
      if books[t].condition != condition {
        return Raised;
      }
      books := books[t := books[t].(tick := newTick)];
      return Applied;
    }

    method ApplyChange(t: Token, c: Change) returns (verdict: Verdict)
      modifies this
      ensures (ViewOf(t), verdict) == Changed(old(ViewOf(t)), c)
      ensures forall u: Token :: u != t ==> ViewOf(u) == old(ViewOf(u))
    {
      if t !in books || !books[t].valid {
        return Raised;
      }
      var (after, v) := Updated(books[t], c);
      books := books[t := after];
      return v;
    }

    method ApplyFeed(t: Token, f: Feed) returns (verdict: Verdict)
      modifies this
      ensures (ViewOf(t), verdict) == Fed(old(ViewOf(t)), f)
      ensures forall u: Token :: u != t ==> ViewOf(u) == old(ViewOf(u))
    {
      match f
      case SnapshotFeed(s) => verdict := ApplySnapshot(t, s);
      case TickFeed(c, n) => verdict := ApplyTickSizeChange(t, c, n);
      case ChangeFeed(c) => verdict := ApplyChange(t, c);
    }

    /** The tape builder marks a token's book invalid after any error. */
    method Invalidate(t: Token)
      modifies this`books
      ensures ViewOf(t) == Invalidated(old(ViewOf(t)))
      ensures forall u: Token :: u != t ==> ViewOf(u) == old(ViewOf(u))
    {
      if t in books {
        books := books[t := books[t].(valid := false)];
      }
    }
  }

  function Invalidated(v: View): View
  {
    if v.book.Some? then v.(book := Some(v.book.value.(valid := false))) else v
  }
}
