/** The per-episode tape: one ladder per accepted event, plus the spans in which the book is not
    trustworthy. */
module Tapes {
  import opened FixedPoint
  import opened Market
  import opened Ladders
  import opened Books
  import opened Reconstruction

  datatype RowKind = SnapshotRow | TickRow | UpdateRow(side: Side, price: int)

  datatype Row = Row(time: int, token: Token, kind: RowKind, valid: bool, bids: Ladder, asks: Ladder)

  /** An uncertainty span, inclusive at both ends; no end means it was never closed. */
  datatype Interval = Interval(token: Token, start: int, end: Option<int>)

  function KindOf(f: Feed): RowKind
  {
    match f
    case SnapshotFeed(_) => SnapshotRow
    case TickFeed(_, _) => TickRow
    case ChangeFeed(c) => UpdateRow(c.side, c.price)
  }

  function RowOf(e: Event, b: Book): Row
  {
    Row(e.time, e.token, KindOf(e.feed), b.valid, LadderOf(Sell, b.bids), LadderOf(Buy, b.asks))
  }

  /** The builder's state between two events. */
  datatype Build = Build(
    views: map<Token, View>, rows: seq<Row>, uncertainty: seq<Interval>, pending: map<Token, int>)

  function ViewIn(b: Build, t: Token): View { if t in b.views then b.views[t] else UNSEEN }

  function Step(b: Build, e: Event): Build
  {
    var (view, verdict) := Fed(ViewIn(b, e.token), e.feed);
    if verdict.Raised? then
      b.(views := b.views[e.token := Invalidated(view)],
         pending := if e.token in b.pending then b.pending else b.pending[e.token := e.time])
    else
      var closes := e.feed.SnapshotFeed? && e.token in b.pending;
      Build(b.views[e.token := view],
            if view.book.None? then b.rows else b.rows + [RowOf(e, view.book.value)],
            if closes then b.uncertainty + [Interval(e.token, b.pending[e.token], Some(e.time))] else b.uncertainty,
            if closes then b.pending - {e.token} else b.pending)
  }

  function Built(events: seq<Event>): Build
  {
    if events == [] then Build(map[], [], [], map[])
    else Step(Built(events[..|events| - 1]), events[|events| - 1])
  }

  /** Spans that are still open when the feed ends. */
  function OpenSpans(pending: map<Token, int>): (spans: seq<Interval>)
    ensures forall t <- pending :: Interval(t, pending[t], None) in spans
  {
    var tokens := Prices(Buy, pending.Keys);
    var spans := seq(|tokens|, i requires 0 <= i < |tokens| =>
      assert tokens[i] in tokens; Interval(tokens[i], pending[tokens[i]], None));
    assert forall t <- pending :: Interval(t, pending[t], None) in spans by {
      forall t | t in pending ensures Interval(t, pending[t], None) in spans {
        assert t in tokens;
        var i :| 0 <= i < |tokens| && tokens[i] == t;
        assert spans[i] == Interval(t, pending[t], None);
      }
    }
    spans
  }

  function Spans(b: Build): seq<Interval> { b.uncertainty + OpenSpans(b.pending) }

  predicate IsUncertain(spans: seq<Interval>, t: Token, time: int)
  {
    exists s <- spans :: s.token == t && s.start <= time && (s.end.None? || time <= s.end.value)
  }

  /** Index of the last row of a token at or before a time: the book an order arriving then meets. */
  function RowAt(rows: seq<Row>, t: Token, time: int): (i: Option<nat>)
    ensures i.Some? ==> i.value < |rows| && rows[i.value].token == t && rows[i.value].time <= time
    ensures i.Some? ==> forall j :: i.value < j < |rows| ==> rows[j].token != t || rows[j].time > time
    ensures i.None? ==> forall j :: 0 <= j < |rows| ==> rows[j].token != t || rows[j].time > time
  {
    if rows == [] then None
    else if rows[|rows| - 1].token == t && rows[|rows| - 1].time <= time then Some(|rows| - 1)
    else RowAt(rows[..|rows| - 1], t, time)
  }

  /** Builds the tape in one pass over the feed. */
  method BuildTape(events: seq<Event>) returns (rows: seq<Row>, spans: seq<Interval>)
    ensures rows == Built(events).rows && spans == Spans(Built(events))
  {
    var reconstructor := new BookReconstructor();
    var uncertainty: seq<Interval>, pending: map<Token, int> := [], map[];
    rows := [];
    for i := 0 to |events|
      invariant fresh(reconstructor)
      invariant forall t: Token :: reconstructor.ViewOf(t) == ViewIn(Built(events[..i]), t)
      invariant rows == Built(events[..i]).rows
      invariant uncertainty == Built(events[..i]).uncertainty && pending == Built(events[..i]).pending
    {
      assert events[..i + 1][..i] == events[..i];
      var e := events[i];
      var verdict := reconstructor.ApplyFeed(e.token, e.feed);
      if verdict.Raised? {
        reconstructor.Invalidate(e.token);
        if e.token !in pending {
          pending := pending[e.token := e.time];
        }
        continue;
      }
      if e.feed.SnapshotFeed? && e.token in pending {
        uncertainty := uncertainty + [Interval(e.token, pending[e.token], Some(e.time))];
        pending := pending - {e.token};
      }
      var view := reconstructor.ViewOf(e.token);
      if view.book.Some? {
        rows := rows + [RowOf(e, view.book.value)];
      }
    }
    assert events[..|events|] == events;
    spans := uncertainty + OpenSpans(pending);
  }

  // ---- the trade gate -----------------------------------------------------------------------

  ghost predicate TimeOrdered(events: seq<Event>)
  {
    forall i, j :: 0 <= i <= j < |events| ==> events[i].time <= events[j].time
  }

  /** The row shows exactly this book. */
  ghost predicate Shows(r: Row, b: Book)
  {
    r.valid == b.valid && r.bids == LadderOf(Sell, b.bids) && r.asks == LadderOf(Buy, b.asks)
  }

  /** The last row of a token, if it has one. */
  function LastRow(rows: seq<Row>, t: Token): Option<Row>
  {
    if rows == [] then None
    else if rows[|rows| - 1].token == t then Some(rows[|rows| - 1])
    else LastRow(rows[..|rows| - 1], t)
  }

  /** A token outside every open span either has no book yet or its last row shows its book; a token
      inside an open span has no valid book. */
  ghost predicate Mirrors(b: Build, t: Token)
  {
    var book := ViewIn(b, t).book;
    && (t in b.pending ==> book.None? || !book.value.valid)
    && (t !in b.pending && book.Some? ==>
          LastRow(b.rows, t).Some? && Shows(LastRow(b.rows, t).value, book.value))
    && (book.None? ==> LastRow(b.rows, t).None?)
  }

  lemma LastRowAppend(rows: seq<Row>, r: Row, t: Token)
    ensures LastRow(rows + [r], t) == if r.token == t then Some(r) else LastRow(rows, t)
  {
  }

  lemma StepMirrors(b: Build, e: Event, t: Token)
    requires Mirrors(b, t)
    ensures Mirrors(Step(b, e), t)
  {
    hide LadderOf;
    var (view, verdict) := Fed(ViewIn(b, e.token), e.feed);
    if !verdict.Raised? && view.book.Some? {
      LastRowAppend(b.rows, RowOf(e, view.book.value), t);
    }
  }

  lemma {:induction false} BuiltMirrors(events: seq<Event>, t: Token)
    ensures Mirrors(Built(events), t)
  {
    if events != [] {
      BuiltMirrors(events[..|events| - 1], t);
      StepMirrors(Built(events[..|events| - 1]), events[|events| - 1], t);
    }
  }

  /** One event appends at most one row, stamped with its own time, and an open span of any token
      stays open or is closed at that time. */
  lemma StepEffect(b: Build, e: Event, t: Token)
    ensures var s := Step(b, e);
      && (s.rows == b.rows || exists r: Row :: r.time == e.time && s.rows == b.rows + [r])
      && (forall i <- b.uncertainty :: i in s.uncertainty)
      && (t in b.pending ==>
            || (t in s.pending && s.pending[t] == b.pending[t])
            || Interval(t, b.pending[t], Some(e.time)) in s.uncertainty)
      && (t in s.pending ==> (t in b.pending && s.pending[t] == b.pending[t]) || s.pending[t] == e.time)
  {
  }

  /** Rows are only ever appended. */
  lemma {:induction false} RowsGrow(events: seq<Event>, n: nat)
    requires n <= |events|
    ensures Built(events[..n]).rows <= Built(events).rows
  {
    if n == |events| {
      assert events[..n] == events;
    } else {
      var init, e := events[..|events| - 1], events[|events| - 1];
      assert init[..n] == events[..n];
      RowsGrow(init, n);
      StepEffect(Built(init), e, e.token);
    }
  }

  lemma RowAtIgnoresLater(rows: seq<Row>, r: Row, t: Token, time: int)
    requires r.time > time
    ensures RowAt(rows + [r], t, time) == RowAt(rows, t, time)
  {
  }

  /** Events after `time` append only rows that an order arriving by then does not meet. */
  lemma {:induction false} LaterRows(events: seq<Event>, n: nat, t: Token, time: int)
    requires n <= |events| && forall i :: n <= i < |events| ==> events[i].time > time
    ensures var rows, now := Built(events).rows, Built(events[..n]).rows;
      RowAt(rows, t, time) == RowAt(now, t, time) && now <= rows
  {
    if n == |events| {
      assert events[..n] == events;
    } else {
      var init, e := events[..|events| - 1], events[|events| - 1];
      LaterRows(init, n, t, time);
      assert init[..n] == events[..n];
      StepEffect(Built(init), e, t);
      if r: Row :| r.time == e.time && Built(events).rows == Built(init).rows + [r] {
        RowAtIgnoresLater(Built(init).rows, r, t, time);
      }
    }
  }

  /** A span that is open after the events up to `time` ends up closed later, or never. */
  ghost predicate OutlastsIn(b: Build, t: Token, start: int, time: int)
  {
    || (t in b.pending && b.pending[t] == start)
    || exists s <- b.uncertainty :: s.token == t && s.start == start && s.end.Some? && s.end.value > time
  }

  lemma {:induction false} OpenSpanOutlasts(events: seq<Event>, n: nat, t: Token, time: int)
    requires n <= |events| && forall i :: n <= i < |events| ==> events[i].time > time
    requires t in Built(events[..n]).pending
    ensures OutlastsIn(Built(events), t, Built(events[..n]).pending[t], time)
  {
    if n == |events| {
      assert events[..n] == events;
    } else {
      var init, e := events[..|events| - 1], events[|events| - 1];
      assert init[..n] == events[..n];
      OpenSpanOutlasts(init, n, t, time);
      StepEffect(Built(init), e, t);
    }
  }

  /** Open spans began, and rows were stamped, no later than the last event seen. */
  lemma {:induction false} StampedBy(events: seq<Event>, t: Token, time: int)
    requires forall e <- events :: e.time <= time
    ensures t in Built(events).pending ==> Built(events).pending[t] <= time
    ensures forall r <- Built(events).rows :: r.time <= time
  {
    if events != [] {
      var init, e := events[..|events| - 1], events[|events| - 1];
      StampedBy(init, t, time);
      StepEffect(Built(init), e, t);
    }
  }

  /** A token whose span is open at `time` is reported uncertain by the finished tape. */
  lemma OpenSpanIsReported(events: seq<Event>, n: nat, t: Token, time: int)
    requires n <= |events| && forall i :: 0 <= i < |events| ==> (i < n <==> events[i].time <= time)
    requires t in Built(events[..n]).pending
    ensures IsUncertain(Spans(Built(events)), t, time)
  {
    var b, now := Built(events), Built(events[..n]);
    OpenSpanOutlasts(events, n, t, time);
    StampedBy(events[..n], t, time);
    if t in b.pending && b.pending[t] == now.pending[t] {
      assert Interval(t, b.pending[t], None) in Spans(b);
    } else {
      var s :| s in b.uncertainty && s.token == t && s.start == now.pending[t] && s.end.Some? && s.end.value > time;
      assert s in Spans(b);
    }
  }

  lemma {:induction false} RowAtIsLastRow(rows: seq<Row>, t: Token, time: int)
    requires forall r <- rows :: r.time <= time
    ensures RowAt(rows, t, time).None? <==> LastRow(rows, t).None?
    ensures RowAt(rows, t, time).Some? ==> LastRow(rows, t) == Some(rows[RowAt(rows, t, time).value])
  {
    if rows != [] { RowAtIsLastRow(rows[..|rows| - 1], t, time); }
  }

  /** The trade gate is sound. Whatever the feed did (rejected events, stale snapshots, ticks on an
      invalid book), if the last row at or before `time` is valid and no span covers `time`, then the
      book after all `n` events up to `time` exists, is valid, and is the one that row shows. */
  lemma TradeGateSound(events: seq<Event>, n: nat, t: Token, time: int)
    requires TimeOrdered(events) && n <= |events|
    requires forall i :: 0 <= i < |events| ==> (i < n <==> events[i].time <= time)
    requires var rows := Built(events).rows;
      RowAt(rows, t, time).Some? && rows[RowAt(rows, t, time).value].valid
    requires !IsUncertain(Spans(Built(events)), t, time)
    ensures var rows, book := Built(events).rows, ViewIn(Built(events[..n]), t).book;
      book.Some? && book.value.valid && Shows(rows[RowAt(rows, t, time).value], book.value)
  {
    var now := Built(events[..n]);
    LaterRows(events, n, t, time);
    BuiltMirrors(events[..n], t);
    StampedBy(events[..n], t, time);
    RowAtIsLastRow(now.rows, t, time);
    if t in now.pending { OpenSpanIsReported(events, n, t, time); }
  }
}
