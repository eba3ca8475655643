/** What the uncertainty spans of a tape say, both ways: every span is an outage, from an event that raised to the
    snapshot that recovered, with no valid book in between; and which tick size is in force. */
module TapeRules {
  import opened FixedPoint
  import opened Market
  import opened Ladders
  import opened Books
  import opened BookRules
  import opened Reconstruction
  import opened Tapes

  /** Event `i` raised. */
  ghost predicate RaisedAt(events: seq<Event>, i: nat)
    requires i < |events|
  {
    Fed(ViewIn(Built(events[..i]), events[i].token), events[i].feed).1.Raised?
  }

  /** Event `i` is a snapshot that did not raise. */
  ghost predicate RecoveredAt(events: seq<Event>, i: nat)
    requires i < |events|
  {
    events[i].feed.SnapshotFeed? && !RaisedAt(events, i)
  }

  /** A token has a valid book after the first `n` events. */
  ghost predicate BookAfter(events: seq<Event>, n: nat, t: Token)
    requires n <= |events|
  {
    var book := ViewIn(Built(events[..n]), t).book;
    book.Some? && book.value.valid
  }

  /** An outage of a token: event `i` raised at `start`, and since then the token has had no valid book, up to but not
      including event `j`. */
  ghost predicate OutageFrom(events: seq<Event>, t: Token, start: int, i: nat, j: nat)
    requires i < j <= |events|
  {
    && events[i].token == t && events[i].time == start && RaisedAt(events, i)
    && forall k :: i < k <= j ==> !BookAfter(events, k, t)
  }

  /** An outage that event `j` ended at `end`. */
  ghost predicate OutageTo(events: seq<Event>, t: Token, start: int, end: int, i: nat, j: nat)
  {
    && i < j < |events| && OutageFrom(events, t, start, i, j)
    && events[j].token == t && events[j].time == end && RecoveredAt(events, j)
  }

  /** A span says when a token had no valid book: until a snapshot recovered it, or for good. */
  ghost predicate IsOutage(events: seq<Event>, s: Interval)
  {
    if s.end.None? then exists i: nat :: i < |events| && OutageFrom(events, s.token, s.start, i, |events|)
    else exists i: nat, j: nat :: OutageTo(events, s.token, s.start, s.end.value, i, j)
  }

  lemma PrefixOfMore(events: seq<Event>, e: Event, n: nat)
    requires n <= |events|
    ensures (events + [e])[..n] == events[..n]
  {
  }

  lemma OutageLater(events: seq<Event>, e: Event, t: Token, start: int, i: nat, j: nat)
    requires i < j <= |events| && OutageFrom(events, t, start, i, j)
    ensures OutageFrom(events + [e], t, start, i, j)
  {
    PrefixOfMore(events, e, i);
    forall k | i < k <= j ensures !BookAfter(events + [e], k, t) {
      PrefixOfMore(events, e, k);
      assert !BookAfter(events, k, t);
    }
  }

  lemma ClosedLater(events: seq<Event>, e: Event, s: Interval)
    requires s.end.Some? && IsOutage(events, s)
    ensures IsOutage(events + [e], s)
  {
    var i: nat, j: nat :| OutageTo(events, s.token, s.start, s.end.value, i, j);
    OutageLater(events, e, s.token, s.start, i, j);
    PrefixOfMore(events, e, j);
    assert OutageTo(events + [e], s.token, s.start, s.end.value, i, j);
  }

  lemma OpenLater(events: seq<Event>, e: Event, t: Token, start: int, i: nat)
    requires i < |events| && OutageFrom(events, t, start, i, |events|)
    requires !BookAfter(events + [e], |events| + 1, t)
    ensures OutageFrom(events + [e], t, start, i, |events| + 1)
  {
    OutageLater(events, e, t, start, i, |events|);
  }

  lemma OpenedNow(events: seq<Event>, e: Event)
    requires RaisedAt(events + [e], |events|) && !BookAfter(events + [e], |events| + 1, e.token)
    ensures OutageFrom(events + [e], e.token, e.time, |events|, |events| + 1)
  {
  }

  lemma ClosedNow(events: seq<Event>, e: Event, start: int, i: nat)
    requires i < |events| && OutageFrom(events, e.token, start, i, |events|)
    requires RecoveredAt(events + [e], |events|)
    ensures IsOutage(events + [e], Interval(e.token, start, Some(e.time)))
  {
    OutageLater(events, e, e.token, start, i, |events|);
    assert OutageTo(events + [e], e.token, start, e.time, i, |events|);
  }

  /** What a step does to the spans. */
  lemma StepSpans(b: Build, e: Event)
    ensures var s, raised := Step(b, e), Fed(ViewIn(b, e.token), e.feed).1.Raised?;
      && (forall x <- s.uncertainty :: x in b.uncertainty
            || (!raised && e.feed.SnapshotFeed? && e.token in b.pending && x == Interval(e.token, b.pending[e.token], Some(e.time))))
      && (forall t <- s.pending ::
            if t in b.pending then s.pending[t] == b.pending[t] && (t == e.token ==> raised || !e.feed.SnapshotFeed?)
            else t == e.token && raised && s.pending[t] == e.time)
  {
  }

  lemma BuiltStep(events: seq<Event>)
    requires events != []
    ensures var init, e := events[..|events| - 1], events[|events| - 1];
      && Built(events) == Step(Built(init), e) && events == init + [e]
      && (RaisedAt(events, |events| - 1) <==> Fed(ViewIn(Built(init), e.token), e.feed).1.Raised?)
  {
    hide Step, Fed, ViewIn;
    var init := events[..|events| - 1];
    assert events == init + [events[|events| - 1]];
  }

  lemma PendingHasNoBook(events: seq<Event>, t: Token)
    requires t in Built(events).pending
    ensures !BookAfter(events, |events|, t)
  {
    BuiltMirrors(events, t);
    assert events[..|events|] == events;
  }

  /** Every span that was closed is an outage, and every open one is an outage so far. */
  lemma {:induction false} SpansSoFar(events: seq<Event>)
    ensures forall s <- Built(events).uncertainty :: s.end.Some? && IsOutage(events, s)
    ensures forall t <- Built(events).pending ::
      exists i: nat :: i < |events| && OutageFrom(events, t, Built(events).pending[t], i, |events|)
  {
    hide Step, Fed, OutageFrom, BookAfter, RaisedAt, IsOutage;
    if events != [] {
      var init, e := events[..|events| - 1], events[|events| - 1];
      SpansSoFar(init);
      BuiltStep(events);
      var b, now := Built(init), Built(events);
      StepSpans(b, e);
      forall s | s in now.uncertainty ensures s.end.Some? && IsOutage(events, s) {
        if s in b.uncertainty {
          ClosedLater(init, e, s);
        } else {
          var i: nat :| i < |init| && OutageFrom(init, e.token, b.pending[e.token], i, |init|);
          ClosedNow(init, e, b.pending[e.token], i);
        }
      }
      forall t | t in now.pending
        ensures exists i: nat :: i < |events| && OutageFrom(events, t, now.pending[t], i, |events|)
      {
        PendingHasNoBook(events, t);
        if t in b.pending {
          var i: nat :| i < |init| && OutageFrom(init, t, b.pending[t], i, |init|);
          OpenLater(init, e, t, b.pending[t], i);
          assert i < |events| && OutageFrom(events, t, now.pending[t], i, |events|);
        } else {
          OpenedNow(init, e);
          assert OutageFrom(events, t, now.pending[t], |init|, |events|);
        }
      }
    }
  }

  /** Every span a tape reports is an outage of its token: it begins when an event raised, ends when a snapshot
      recovered, and covers no moment with a valid book in between. */
  lemma SpansAreOutages(events: seq<Event>, s: Interval)
    requires s in Spans(Built(events))
    ensures IsOutage(events, s)
  {
    var b := Built(events);
    SpansSoFar(events);
    if s !in b.uncertainty { OpenSpanOf(b.pending, s); }
  }

  lemma OpenSpanOf(pending: map<Token, int>, s: Interval)
    requires s in OpenSpans(pending)
    ensures s.token in pending && s == Interval(s.token, pending[s.token], None)
  {
    var tokens := Prices(Buy, pending.Keys);
    var i :| 0 <= i < |OpenSpans(pending)| && OpenSpans(pending)[i] == s;
    assert tokens[i] in tokens;
  }

  // ---- what one feed event does -------------------------------------------------------------

  /** The tick size in force once a snapshot has been seen. */
  function TickAfter(v: View, s: Snapshot): int { if v.tick.Some? && !s.fromRest then v.tick.value else s.tick }

  /** What a feed event does to what is known of its token. A snapshot of another market or outcome is refused, and so is an
      update without a valid book, or a tick event of another market; whatever is refused leaves the book alone. A tick size
      that is announced, by a snapshot or an event, is remembered in any case. */
  ghost predicate FeedRule(v: View, f: Feed, w: View, verdict: Verdict)
  {
    match f
    case SnapshotFeed(s) =>
      && w.tick == Some(TickAfter(v, s))
      && (if v.book.Some? && (v.book.value.condition, v.book.value.outcome) != (s.condition, s.outcome)
          then verdict.Raised? && w.book == v.book
          else
            && w.book.Some?
            && SnapshotRule(if v.book.Some? then v.book.value else EmptyBook(s.condition, s.outcome),
                            s.(tick := TickAfter(v, s)), w.book.value, verdict))
    case TickFeed(condition, newTick) =>
      if newTick <= 0 then verdict.Raised? && w == v
      else
        && w.tick == Some(newTick)
        && (if v.book.None? then verdict.Applied? && w.book.None?
            else if v.book.value.condition != condition then verdict.Raised? && w.book == v.book
            else verdict.Applied? && w.book == Some(v.book.value.(tick := newTick)))
    case ChangeFeed(c) =>
      if v.book.None? || !v.book.value.valid then verdict.Raised? && w == v
      else w.tick == v.tick && w.book.Some? && UpdateRule(v.book.value, c, w.book.value, verdict)
  }

  lemma FedByRule(v: View, f: Feed)
    ensures FeedRule(v, f, Fed(v, f).0, Fed(v, f).1)
  {
    hide SnapshotRule, UpdateRule;
    match f
    case SnapshotFeed(s) =>
      ReplacedByRule(if v.book.Some? then v.book.value else EmptyBook(s.condition, s.outcome), s.(tick := TickAfter(v, s)));
    case TickFeed(_, _) =>
    case ChangeFeed(c) => if v.book.Some? { UpdatedByRule(v.book.value, c); }
  }

  // ---- the tick size in force ---------------------------------------------------------------

  function FedAll(v: View, feeds: seq<Feed>): View
  {
    if feeds == [] then v else Fed(FedAll(v, feeds[..|feeds| - 1]), feeds[|feeds| - 1]).0
  }

  /** A feed that may change the tick size once one is known: a positive tick event, or a REST snapshot. */
  predicate RestatesTick(f: Feed)
  {
    (f.TickFeed? && f.newTick > 0) || (f.SnapshotFeed? && f.snapshot.fromRest)
  }

  /** A known tick size stays in force until a feed restates it, whatever the socket's snapshots carry, and every
      snapshot that is applied meanwhile puts the book on that grid. */
  lemma {:induction false} TickStays(v: View, feeds: seq<Feed>, tick: int)
    requires v.tick == Some(tick) && forall f <- feeds :: !RestatesTick(f)
    ensures FedAll(v, feeds).tick == Some(tick)
    ensures (&& feeds != [] && feeds[|feeds| - 1].SnapshotFeed?
             && Fed(FedAll(v, feeds[..|feeds| - 1]), feeds[|feeds| - 1]).1.Applied?) ==>
      FedAll(v, feeds).book.Some? && FedAll(v, feeds).book.value.tick == tick
  {
    if feeds != [] {
      TickStays(v, feeds[..|feeds| - 1], tick);
      assert !RestatesTick(feeds[|feeds| - 1]);
    }
  }

  /** A feed that restates the tick size puts it in force at once. */
  lemma TickRestated(v: View, f: Feed)
    requires RestatesTick(f)
    ensures Fed(v, f).0.tick == Some(if f.TickFeed? then f.newTick else f.snapshot.tick)
    ensures Fed(v, f).1.Applied? && Fed(v, f).0.book.Some? ==>
      Fed(v, f).0.book.value.tick == if f.TickFeed? then f.newTick else f.snapshot.tick
  {
  }
}
