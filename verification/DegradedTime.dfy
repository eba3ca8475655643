/** The share of a replay spent inside degraded quality intervals. */
module DegradedTime {
  import opened FixedPoint

  /** A quality interval; one without an end, or ending at zero, runs to the end of the replay. */
  datatype Interval = Interval(start: int, end: Option<int>)

  datatype Span = Span(start: int, end: int)

  function EndOf(i: Interval, replayEnd: int): int
  {
    if i.end.None? || i.end.value == 0 then replayEnd else i.end.value
  }

  function Clip(i: Interval, lo: int, hi: int): Span
  {
    Span(Max(lo, i.start), Min(hi, EndOf(i, hi)))
  }

  /** Tuples compare by start, then by end. */
  predicate Before(a: Span, b: Span) { a.start < b.start || (a.start == b.start && a.end <= b.end) }

  ghost predicate Ordered(spans: seq<Span>)
  {
    forall i, j :: 0 <= i < j < |spans| ==> Before(spans[i], spans[j])
  }

  function Insert(spans: seq<Span>, s: Span): seq<Span>
  {
    if spans == [] || Before(s, spans[0]) then [s] + spans else [spans[0]] + Insert(spans[1..], s)
  }

  function SortedClips(intervals: seq<Interval>, lo: int, hi: int): seq<Span>
  {
    if intervals == [] then []
    else Insert(SortedClips(intervals[..|intervals| - 1], lo, hi), Clip(intervals[|intervals| - 1], lo, hi))
  }

  /** The instants of a span, and of a list of spans. */
  predicate Within(s: Span, t: int) { s.start <= t < s.end }

  function Instants(s: Span): set<int> { set t | s.start <= t < s.end && Within(s, t) }

  function Union(spans: seq<Span>): set<int>
  {
    if spans == [] then {} else Union(spans[..|spans| - 1]) + Instants(spans[|spans| - 1])
  }

  function Length(spans: seq<Span>): int
  {
    if spans == [] then 0
    else Length(spans[..|spans| - 1]) + spans[|spans| - 1].end - spans[|spans| - 1].start
  }

  /** An interval that never ended, or ended at zero, still holds. */
  predicate Holds(i: Interval, hi: int, t: int)
  {
    i.start <= t && if i.end.None? || i.end.value == 0 then t < hi else t < i.end.value
  }

  predicate Reached(intervals: seq<Interval>, hi: int, t: int)
  {
    exists i <- intervals :: Holds(i, hi, t)
  }

  /** The instants of the replay that lie inside some interval: what the figure is meant to measure. */
  function Degraded(intervals: seq<Interval>, lo: int, hi: int): set<int>
  {
    set t | lo <= t < hi && Reached(intervals, hi, t)
  }

  lemma BeforeTotal(a: Span, b: Span)
    ensures Before(a, b) || Before(b, a)
  {
  }

  lemma BeforeTransitive(a: Span, b: Span, c: Span)
    requires Before(a, b) && Before(b, c)
    ensures Before(a, c)
  {
  }

  lemma {:induction false} InsertOrdered(spans: seq<Span>, s: Span)
    requires Ordered(spans)
    ensures Ordered(Insert(spans, s)) && multiset(Insert(spans, s)) == multiset(spans) + multiset{s}
  {
    hide Before;
    if spans != [] && !Before(s, spans[0]) {
      BeforeTotal(s, spans[0]);
      var rest := Insert(spans[1..], s);
      assert spans == [spans[0]] + spans[1..];
      InsertOrdered(spans[1..], s);
      forall j | 0 <= j < |rest| ensures Before(spans[0], rest[j]) { assert rest[j] in multiset(rest); }
    } else {
      forall j | 0 <= j < |spans| ensures Before(s, spans[j]) {
        if j > 0 { BeforeTransitive(s, spans[0], spans[j]); }
      }
    }
  }

  lemma {:induction false} UnionIsMembers(spans: seq<Span>)
    ensures forall t: int :: t in Union(spans) <==> exists s <- spans :: Within(s, t)
  {
    if spans != [] {
      var init, last := spans[..|spans| - 1], spans[|spans| - 1];
      UnionIsMembers(init);
      assert spans == init + [last];
    }
  }

  lemma {:induction false} ClipsCover(intervals: seq<Interval>, lo: int, hi: int)
    ensures Ordered(SortedClips(intervals, lo, hi))
    ensures Union(SortedClips(intervals, lo, hi)) == Degraded(intervals, lo, hi)
  {
    if intervals != [] {
      var init, last := intervals[..|intervals| - 1], intervals[|intervals| - 1];
      assert intervals == init + [last];
      ClipsCover(init, lo, hi);
      var before := SortedClips(init, lo, hi);
      InsertOrdered(before, Clip(last, lo, hi));
      InsertCovers(before, Clip(last, lo, hi));
      DegradedSnoc(init, last, lo, hi);
    }
  }

  lemma DegradedSnoc(init: seq<Interval>, last: Interval, lo: int, hi: int)
    ensures Degraded(init + [last], lo, hi)
         == Degraded(init, lo, hi) + Instants(Clip(last, lo, hi))
  {
    forall t: int | lo <= t < hi
      ensures Reached(init + [last], hi, t) <==> Reached(init, hi, t) || Within(Clip(last, lo, hi), t)
    {
      if Reached(init, hi, t) {
        var i :| i in init && Holds(i, hi, t);
        assert i in init + [last];
      } else if Holds(last, hi, t) {
        assert last in init + [last];
      }
    }
  }

  lemma InsertCovers(spans: seq<Span>, s: Span)
    requires Ordered(spans)
    ensures Union(Insert(spans, s)) == Union(spans) + Instants(s)
  {
    InsertOrdered(spans, s);
    UnionIsMembers(spans);
    UnionIsMembers(Insert(spans, s));
    forall x: Span ensures x in Insert(spans, s) <==> x in spans || x == s {
      assert x in multiset(Insert(spans, s)) <==> x in multiset(spans) || x == s;
    }
  }

  /** Spans that neither overlap nor touch, in order. */
  ghost predicate Separate(spans: seq<Span>)
  {
    && (forall s <- spans :: s.start < s.end)
    && forall i, j :: 0 <= i < j < |spans| ==> Apart(spans[i], spans[j])
  }

  predicate Apart(a: Span, b: Span) { a.end < b.start }

  lemma {:induction false} CountInstants(s: Span)
    requires s.start <= s.end
    ensures |Instants(s)| == s.end - s.start
    decreases s.end - s.start
  {
    if s.start < s.end {
      var shorter := Span(s.start, s.end - 1);
      CountInstants(shorter);
      assert Instants(s) == Instants(shorter) + {s.end - 1};
    }
  }

  /** Separate spans measure exactly what they cover. */
  lemma {:induction false} SeparateLength(spans: seq<Span>)
    requires Separate(spans)
    ensures |Union(spans)| == Length(spans)
  {
    if spans != [] {
      var init, last := spans[..|spans| - 1], spans[|spans| - 1];
      SeparateLength(init);
      CountInstants(last);
      UnionIsMembers(init);
      assert Union(init) !! Instants(last);
    }
  }

  lemma ExtendLast(merged: seq<Span>, s: Span)
    requires merged != [] && Separate(merged) && s.start < s.end
    requires merged[|merged| - 1].start <= s.start <= merged[|merged| - 1].end
    ensures var last := merged[|merged| - 1];
      var longer := merged[..|merged| - 1] + [Span(last.start, Max(last.end, s.end))];
      Separate(longer) && Union(longer) == Union(merged) + Instants(s)
  {
  }

  lemma Append(merged: seq<Span>, s: Span)
    requires Separate(merged) && s.start < s.end
    requires merged != [] ==> merged[|merged| - 1].end < s.start
    ensures Separate(merged + [s]) && Union(merged + [s]) == Union(merged) + Instants(s)
  {
    hide Separate, Instants, Union;
    AppendSeparate(merged, s);
    UnionSnoc(merged, s);
  }

  lemma UnionSnoc(spans: seq<Span>, s: Span)
    ensures Union(spans + [s]) == Union(spans) + Instants(s)
  {
  }

  lemma AppendSeparate(merged: seq<Span>, s: Span)
    requires Separate(merged) && s.start < s.end
    requires merged != [] ==> merged[|merged| - 1].end < s.start
    ensures Separate(merged + [s])
  {
  }

  /** The sort-and-merge loop: separate spans covering the same instants. */
  method Merge(spans: seq<Span>) returns (merged: seq<Span>)
    requires Ordered(spans)
    ensures Separate(merged) && Union(merged) == Union(spans)
  {
    merged := [];
    for i := 0 to |spans|
      invariant Separate(merged) && Union(merged) == Union(spans[..i])
      invariant merged != [] && i < |spans| ==> merged[|merged| - 1].start <= spans[i].start
    {
      hide Union, Separate;
      var s := spans[i];
      UnionStep(spans, i);
      assert i + 1 < |spans| ==> Before(s, spans[i + 1]);
      if s.end <= s.start {
        continue;
      }
      if merged != [] && s.start <= merged[|merged| - 1].end {
        var last := merged[|merged| - 1];
        ExtendLast(merged, s);
        merged := merged[..|merged| - 1] + [Span(last.start, Max(last.end, s.end))];
      } else {
        Append(merged, s);
        merged := merged + [s];
      }
    }
    assert spans[..|spans|] == spans;
  }

  lemma UnionStep(spans: seq<Span>, i: nat)
    requires i < |spans|
    ensures Union(spans[..i + 1]) == Union(spans[..i]) + Instants(spans[i])
    ensures spans[i].end <= spans[i].start ==> Instants(spans[i]) == {}
  {
    assert spans[..i + 1][..i] == spans[..i];
  }

  function Earliest(times: seq<int>): (t: int)
    requires times != []
    ensures t in times && forall x <- times :: t <= x
  {
    assert times == times[..|times| - 1] + [times[|times| - 1]];
    if |times| == 1 then times[0] else Min(Earliest(times[..|times| - 1]), times[|times| - 1])
  }

  function Latest(times: seq<int>): (t: int)
    requires times != []
    ensures t in times && forall x <- times :: x <= t
  {
    assert times == times[..|times| - 1] + [times[|times| - 1]];
    if |times| == 1 then times[0] else Max(Latest(times[..|times| - 1]), times[|times| - 1])
  }

  method TotalLength(spans: seq<Span>) returns (total: int)
    ensures total == Length(spans)
  {
    total := 0;
    for i := 0 to |spans|
      invariant total == Length(spans[..i])
    {
      assert spans[..i + 1][..i] == spans[..i];
      total := total + (spans[i].end - spans[i].start);
    }
    assert spans[..|spans|] == spans;
  }

  /** Degraded time in parts per million: the number of instants covered by some interval over the length
      of the replay. The cap at one million never binds. */
  method DegradedTimePpm(received: seq<int>, intervals: seq<Interval>) returns (ppm: int)
    ensures received == [] || intervals == [] ==> ppm == 0
    ensures received != [] && intervals != [] ==>
      var lo, hi := Earliest(received), Latest(received);
      if lo == hi then ppm == 1_000_000
      else ppm == |Degraded(intervals, lo, hi)| * 1_000_000 / (hi - lo) <= 1_000_000
  {
    if received == [] || intervals == [] {
      return 0;
    }
    var lo, hi := Earliest(received), Latest(received);
    var total := hi - lo;
    if total <= 0 {
      return 1_000_000;
    }
    ClipsCover(intervals, lo, hi);
    var merged := Merge(SortedClips(intervals, lo, hi));
    var degraded := TotalLength(merged);
    SeparateLength(merged);
    DegradedWithin(intervals, lo, hi);
    ppm := Min(1_000_000, degraded * 1_000_000 / total);
  }

  lemma DegradedWithin(intervals: seq<Interval>, lo: int, hi: int)
    requires lo < hi
    ensures |Degraded(intervals, lo, hi)| * 1_000_000 / (hi - lo) <= 1_000_000
  {
    var d, all := Degraded(intervals, lo, hi), Instants(Span(lo, hi));
    CountInstants(Span(lo, hi));
    assert d <= all;
    Fewer(d, all);
    DivLe(|d| * 1_000_000, (hi - lo) * 1_000_000, hi - lo);
    assert (hi - lo) * 1_000_000 == 1_000_000 * (hi - lo);
    DivBracket(1_000_000 * (hi - lo), hi - lo, 1_000_000);
  }

  lemma {:induction false} Fewer(a: set<int>, b: set<int>)
    requires a <= b
    ensures |a| <= |b|
  {
    assert b == a + (b - a);
  }
}
