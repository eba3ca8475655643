/** The tape simulator's lazily reconciled self-impact refines the reference simulator's overlay. */
module OverlayRefinement {
  import opened FixedPoint
  import opened Fees
  import opened Market
  import opened Ladders
  import opened TakerWalk
  import opened Books
  import opened Reconstruction
  import opened Tapes
  import opened SelfImpact
  import opened Sending
  import opened Execution

  // ---- one row against one event ------------------------------------------------------------

  function OverlayIn(v: View): Overlay
  {
    if v.book.None? then Overlay(map[], map[]) else Overlay(v.book.value.takenBids, v.book.value.takenAsks)
  }

  /** The same view without simulated consumption. */
  function Bare(v: View): View
  {
    if v.book.None? then v
    else v.(book := Some(v.book.value.(takenBids := map[], takenAsks := map[])))
  }

  /** Consumption never influences what an event does to the rest of the book. */
  lemma FedBare(v: View, f: Feed)
    ensures Bare(Fed(v, f).0) == Fed(Bare(v), f).0 && Fed(v, f).1 == Fed(Bare(v), f).1
  {
  }

  ghost predicate SameTakenOn(side: BookSide, less: BookSide, more: BookSide)
  {
    forall p <- side :: TakenAt(less, p) == TakenAt(more, p)
  }

  /** The overlays agree at every price the book displays. What they hold elsewhere no order can see, and a price
      that comes back is restated, which both forget. */
  ghost predicate AgreeOn(b: Book, x: Overlay, y: Overlay)
  {
    SameTakenOn(b.bids, x.bids, y.bids) && SameTakenOn(b.asks, x.asks, y.asks)
  }

  /** An applied event keeps the agreement. */
  lemma AppliedKeepsAgreeing(v: View, f: Feed, y: Overlay)
    requires Fed(v, f).1.Applied? && Fed(v, f).0.book.Some?
    requires KindOf(f).SnapshotRow? || (v.book.Some? && AgreeOn(v.book.value, OverlayIn(v), y))
    ensures AgreeOn(Fed(v, f).0.book.value, OverlayIn(Fed(v, f).0), ForgetIn(y, KindOf(f)))
  {
  }

  /** No displayed price carries consumption that a row of this kind forgets. */
  predicate Invisible(b: Book, kind: RowKind)
  {
    match kind
    case SnapshotRow => (forall p <- b.bids :: TakenAt(b.takenBids, p) == 0) && (forall p <- b.asks :: TakenAt(b.takenAsks, p) == 0)
    case TickRow => true
    case UpdateRow(Buy, price) => price >= 0 && price in b.bids ==> TakenAt(b.takenBids, price) == 0
    case UpdateRow(Sell, price) => price >= 0 && price in b.asks ==> TakenAt(b.takenAsks, price) == 0
  }

  /** Stale events are where the two forms part: the reference book ignores them, the tape still records
      a row. The overlays go on agreeing exactly when what that row forgets is invisible. */
  lemma StaleForgetsIff(v: View, f: Feed, y: Overlay)
    requires Fed(v, f).1.Stale? && v.book.Some? && AgreeOn(v.book.value, OverlayIn(v), y)
    ensures AgreeOn(Fed(v, f).0.book.value, OverlayIn(Fed(v, f).0), ForgetIn(y, KindOf(f)))
       <==> Invisible(v.book.value, KindOf(f))
  {
    var b, o := v.book.value, ForgetIn(y, KindOf(f));
    assert Fed(v, f).0.book == v.book;
    ForgottenAgrees(b, OverlayIn(v), y, KindOf(f));
  }

  lemma ForgottenAgrees(b: Book, x: Overlay, y: Overlay, kind: RowKind)
    requires AgreeOn(b, x, y) && x == Overlay(b.takenBids, b.takenAsks)
    ensures AgreeOn(b, x, ForgetIn(y, kind)) <==> Invisible(b, kind)
  {
    match kind
    case SnapshotRow =>
    case TickRow =>
    case UpdateRow(side, price) =>
      if price >= 0 { ForgottenAt(if side.Buy? then y.bids else y.asks, price); }
  }

  lemma ForgottenAt(taken: BookSide, price: nat)
    ensures forall p: nat :: TakenAt(taken - {price}, p) == if p == price then 0 else TakenAt(taken, p)
  {
  }

  // ---- scripts: a feed interleaved with orders ----------------------------------------------

  datatype Action =
    | Hear(event: Event)
    | Ask(token: Token, side: Side, limit: Option<int>, shares: int, arrival: int)

  function TimeOf(a: Action): int { if a.Hear? then a.event.time else a.arrival }

  /** Actions happen in time order; an order meets every event stamped at or before its arrival. */
  ghost predicate InOrder(script: seq<Action>)
  {
    forall i, j :: 0 <= i < j < |script| ==>
      && TimeOf(script[i]) <= TimeOf(script[j])
      && (script[i].Ask? && script[j].Hear? ==> TimeOf(script[i]) < TimeOf(script[j]))
  }

  function EventsOf(script: seq<Action>): seq<Event>
  {
    if script == [] then []
    else
      var last := script[|script| - 1];
      EventsOf(script[..|script| - 1]) + if last.Hear? then [last.event] else []
  }

  /** An event that does not raise: it is applied, or a registered book ignores it as stale. */
  predicate Heeded(v: View, f: Feed)
  {
    Fed(v, f).1.Applied? || (Fed(v, f).1.Stale? && v.book.Some?)
  }

  /** No event of the feed raises. */
  ghost predicate Clean(events: seq<Event>)
  {
    forall i :: 0 <= i < |events| ==> Heeded(ViewIn(Built(events[..i]), events[i].token), events[i].feed)
  }

  function IntentOf(a: Action): Intent
    requires a.Ask?
  {
    Intent(a.token, 0, a.side, a.limit, a.shares, a.arrival)
  }

  /** The reference simulator: events change the book, orders walk what is available and are recorded in
      the book's overlay, with cash and inventory ample. */
  datatype Eager = Eager(views: map<Token, View>, fills: seq<seq<Slice>>)

  function Seen(e: Eager, t: Token): View { if t in e.views then e.views[t] else UNSEEN }

  function EagerFills(fee: FeeConfig, v: View, a: Action): seq<Slice>
    requires fee.Valid() && a.Ask?
  {
    if v.book.None? || !v.book.value.valid then []
    else Plan(fee, IntentOf(a), Available(v.book.value, a.side), a.shares, 1)
  }

  function EagerStep(fee: FeeConfig, e: Eager, a: Action): Eager
    requires fee.Valid()
  {
    match a
    case Hear(event) => e.(views := e.views[event.token := Fed(Seen(e, event.token), event.feed).0])
    case Ask(token, side, _, _, _) =>
      var v := Seen(e, token);
      var fills := EagerFills(fee, v, a);
      Eager(if v.book.None? then e.views
            else e.views[token := v.(book := Some(Consumed(v.book.value, side, fills)))],
            e.fills + [fills])
  }

  function EagerRun(fee: FeeConfig, script: seq<Action>): Eager
    requires fee.Valid()
  {
    if script == [] then Eager(map[], [])
    else EagerStep(fee, EagerRun(fee, script[..|script| - 1]), script[|script| - 1])
  }

  /** The tape simulator: the tape is fixed, and only orders touch the record and the cursor. */
  datatype Lazy = Lazy(record: Record, cursor: map<Token, nat>, fills: seq<seq<Slice>>)

  function OrderOf(a: Action): Order
    requires a.Ask?
  {
    Order(a.side, a.token, a.arrival, a.shares, None, false, a.limit, None)
  }

  function LazyStep(tape: EpisodeTape, r: Realism, l: Lazy, a: Action): Lazy
    requires r.Valid()
  {
    match a
    case Hear(_) => l
    case Ask(_, _, _, _, arrival) =>
      var reply := Sent(tape, r, l.record, l.cursor, OrderOf(a), arrival, None);
      Lazy(reply.record, reply.cursor, l.fills + [reply.outcome.slices])
  }

  function LazyRun(tape: EpisodeTape, r: Realism, script: seq<Action>): Lazy
    requires r.Valid()
  {
    if script == [] then Lazy(map[], map[], [])
    else LazyStep(tape, r, LazyRun(tape, r, script[..|script| - 1]), script[|script| - 1])
  }

  /** The execution model stripped to what the reference simulator also models. */
  ghost predicate Comparable(r: Realism)
  {
    && r.Valid() && r.haircut == 0 && r.participation == PPM && r.maxLevels.None? && r.volumePpm.None?
    && r.staleMs.None? && r.maxTicks.None? && r.maxPrice.None?
  }

  // ---- the walk against the plan ------------------------------------------------------------

  lemma AllowedIsDisplayed(r: Realism, size: nat)
    requires Comparable(r)
    ensures Allowed(r, size) == size
  {
  }

  /** Under the stripped model the realism walk is the reference plan, slice for slice. */
  lemma {:induction false} GreedyIsPlan(r: Realism, a: Action, levels: Ladder, left: nat, rank: nat)
    requires Comparable(r) && a.Ask? && Positive(levels)
    ensures Greedy(r, levels[..WithinLimit(a.side, a.limit, levels)], left, rank)
         == Plan(r.fee, IntentOf(a), levels, left, rank)
  {
    var n := WithinLimit(a.side, a.limit, levels);
    if left == 0 {
      GreedyNothing(r, levels[..n], rank);
    } else if n > 0 {
      var take, tail := Min(levels[0].size, left), levels[..n][1..];
      assert levels[0] in levels;
      AllowedIsDisplayed(r, levels[0].size);
      assert tail == levels[1..][..n - 1];
      var slice := FillSlice(r.fee, levels[0].price, take, rank);
      assert Greedy(r, levels[..n], left, rank) == [slice] + Greedy(r, tail, left - take, rank + 1);
      if take == left {
        GreedyNothing(r, tail, rank + 1);
      } else {
        GreedyIsPlan(r, a, levels[1..], left - take, rank + 1);
      }
    }
  }

  /** One order against one ladder: both simulators produce the same slices. */
  lemma MatchedIsPlan(r: Realism, a: Action, q: Request, ladder: Ladder)
    requires Comparable(r) && a.Ask? && Positive(ladder)
    requires q.side == a.side && q.size == a.shares && q.limit == a.limit && q.realisedVolume.None?
    requires 0 < q.size && q.minimum <= q.size
    ensures Matched(r, OrderOf(a), q, ladder, None).slices == Plan(r.fee, IntentOf(a), ladder, a.shares, 1)
  {
    WalkClosedForm(r, q, ladder);
    if ladder != [] {
      GreedyIsPlan(r, a, ladder, q.size, 1);
      var e := Eligible(r, q, ladder);
      GreedyTotal(r, e, Budget(r, q), 1);
      TallyPositive(r.fee, Greedy(r, e, Budget(r, q), 1));
      assert e == ladder[..WithinLimit(a.side, a.limit, ladder)];
    }
  }

  // ---- the simulation relation --------------------------------------------------------------

  lemma {:induction false} EventsSplit(a: seq<Action>, b: seq<Action>)
    ensures EventsOf(a + b) == EventsOf(a) + EventsOf(b)
  {
    if b == [] {
      assert a + b == a;
    } else {
      assert (a + b)[..|a + b| - 1] == a + b[..|b| - 1];
      EventsSplit(a, b[..|b| - 1]);
    }
  }

  lemma {:induction false} EventHeard(script: seq<Action>, e: Event)
    requires e in EventsOf(script)
    ensures Hear(e) in script
  {
    var init := script[..|script| - 1];
    if e in EventsOf(init) { EventHeard(init, e); }
  }

  /** A view as a clean feed leaves it: the book, once registered, is valid and sound. */
  ghost predicate CleanView(v: View)
  {
    v.book.Some? ==> v.book.value.valid && Sound(v.book.value)
  }

  lemma FedClean(v: View, f: Feed)
    requires CleanView(v) && Heeded(v, f)
    ensures CleanView(Fed(v, f).0)
  {
    match f
    case SnapshotFeed(s) =>
      ReplacedSound(if v.book.Some? then v.book.value else EmptyBook(s.condition, s.outcome), WithEffectiveTick(v, s));
    case TickFeed(_, _) =>
    case ChangeFeed(c) => UpdatedSound(v.book.value, c);
  }

  lemma CleanPrefix(events: seq<Event>, n: nat)
    requires Clean(events) && n <= |events|
    ensures Clean(events[..n])
  {
    forall i | 0 <= i < n
      ensures Heeded(ViewIn(Built(events[..n][..i]), events[..n][i].token), events[..n][i].feed)
    {
      assert events[..n][..i] == events[..i];
    }
  }

  /** A clean feed leaves every book valid and no span behind. */
  lemma {:induction false} CleanBuild(events: seq<Event>, t: Token)
    requires Clean(events)
    ensures Built(events).pending == map[] && Built(events).uncertainty == []
    ensures CleanView(ViewIn(Built(events), t))
  {
    if events != [] {
      var n, e := |events| - 1, events[|events| - 1];
      CleanPrefix(events, n);
      CleanBuild(events[..n], t);
      var b := Built(events[..n]);
      assert Heeded(ViewIn(b, e.token), e.feed);
      if e.token == t { FedClean(ViewIn(b, t), e.feed); }
    }
  }

  function Next(cursor: map<Token, nat>, t: Token): nat { if t in cursor then cursor[t] + 1 else 0 }

  /** For one token, after the same prefix of the script: the eager book without its overlay is the
      reconstructed book, and wherever it displays a price the eager overlay is the recorded consumption `o`,
      last brought up to date before row `lo`, replayed through every row heard so far. */
  ghost predicate RelatedAt(v: View, o: Overlay, lo: nat, b: Build, rows: seq<Row>, t: Token)
    requires |b.rows| <= |rows|
  {
    && Bare(v) == ViewIn(b, t)
    && lo <= |b.rows|
    && (v.book.Some? ==> AgreeOn(v.book.value, OverlayIn(v), ReplayedIn(o, rows, t, lo, |b.rows|)))
  }

  lemma StepOwn(b: Build, event: Event)
    requires Heeded(ViewIn(b, event.token), event.feed)
    ensures var w := Fed(ViewIn(b, event.token), event.feed).0;
      && ViewIn(Step(b, event), event.token) == w
      && (w.book.None? ==> Step(b, event).rows == b.rows)
      && (w.book.Some? ==>
            Step(b, event).rows == b.rows + [RowOf(event, w.book.value)]
            && RowOf(event, w.book.value).token == event.token
            && RowOf(event, w.book.value).kind == KindOf(event.feed))
  {
  }

  /** An event of the token itself. */
  lemma HearKeepsOwn(v: View, o: Overlay, lo: nat, b: Build, event: Event, rows: seq<Row>)
    requires |b.rows| <= |rows| && Step(b, event).rows <= rows
    requires RelatedAt(v, o, lo, b, rows, event.token) && Heeded(ViewIn(b, event.token), event.feed)
    requires Fed(v, event.feed).1.Stale? && v.book.Some? ==> Invisible(v.book.value, KindOf(event.feed))
    ensures RelatedAt(Fed(v, event.feed).0, o, lo, Step(b, event), rows, event.token)
  {
    hide AgreeOn, Fed, Step, ForgetIn, Invisible;
    FedBare(v, event.feed);
    StepOwn(b, event);
    var w, next := Fed(v, event.feed).0, Step(b, event);
    BareKnown(v, ViewIn(b, event.token));
    BareKnown(w, Fed(Bare(v), event.feed).0);
    if w.book.Some? {
      assert rows[|b.rows|] == next.rows[|b.rows|];
      RegisteredBySnapshot(v, event.feed);
      var y := ReplayedIn(o, rows, event.token, lo, |b.rows|);
      assert ReplayedIn(o, rows, event.token, lo, |b.rows| + 1) == ForgetIn(y, KindOf(event.feed));
      if Fed(v, event.feed).1.Applied? {
        AppliedKeepsAgreeing(v, event.feed, y);
      } else {
        StaleForgetsIff(v, event.feed, y);
      }
    }
  }

  lemma BareKnown(v: View, w: View)
    requires Bare(v) == w
    ensures v.book.Some? <==> w.book.Some?
  {
  }

  /** Only a snapshot registers a book. */
  lemma RegisteredBySnapshot(v: View, f: Feed)
    requires Fed(v, f).0.book.Some?
    ensures v.book.Some? || KindOf(f).SnapshotRow?
  {
  }

  /** An event of another token. */
  lemma HearKeepsOther(v: View, o: Overlay, lo: nat, b: Build, event: Event, rows: seq<Row>, t: Token)
    requires |b.rows| <= |rows| && Step(b, event).rows <= rows
    requires RelatedAt(v, o, lo, b, rows, t) && t != event.token
    ensures RelatedAt(v, o, lo, Step(b, event), rows, t)
  {
    var next := Step(b, event).rows;
    if next != b.rows {
      assert |next| == |b.rows| + 1 && rows[|b.rows|] == next[|b.rows|];
    }
  }

  lemma {:induction false} ReplaySkips(o: Overlay, rows: seq<Row>, t: Token, lo: nat, mid: nat, hi: nat)
    requires mid <= hi <= |rows| && forall i :: mid <= i < hi ==> rows[i].token != t
    ensures ReplayedIn(o, rows, t, lo, hi) == ReplayedIn(o, rows, t, lo, mid)
  {
    if mid < hi { ReplaySkips(o, rows, t, lo, mid, hi - 1); }
  }

  lemma TakeOnly(record: Record, token: Token, taker: Side, slices: seq<Slice>, t: Token)
    ensures var after := OverlayOf(Noted(record, token, Resting(taker), slices), t);
      after == if t != token then OverlayOf(record, t)
        else if taker.Buy? then OverlayOf(record, t).(asks := TakeAll(TakenOn(record, t, Sell), slices))
        else OverlayOf(record, t).(bids := TakeAll(TakenOn(record, t, Buy), slices))
  {
    NotedSide(record, token, Resting(taker), slices, t, Buy);
    NotedSide(record, token, Resting(taker), slices, t, Sell);
  }

  /** The row an order meets shows the book after every event stamped at or before its arrival. */
  lemma AskMeetsBook(events: seq<Event>, m: nat, t: Token, arrival: int)
    requires Clean(events) && m <= |events|
    requires forall i :: 0 <= i < |events| ==> (i < m <==> events[i].time <= arrival)
    ensures Built(events[..m]).rows <= Built(events).rows
    ensures var rows, now := Built(events).rows, Built(events[..m]);
      var at, v := RowAt(rows, t, arrival), ViewIn(now, t);
      && CleanView(v)
      && (at.None? <==> v.book.None?)
      && (at.Some? ==>
            && at.value < |now.rows| && Shows(rows[at.value], v.book.value)
            && forall i :: at.value < i < |now.rows| ==> rows[i].token != t)
  {
    CleanPrefix(events, m);
    CleanBuild(events[..m], t);
    LaterRows(events, m, t, arrival);
    BuiltMirrors(events[..m], t);
    StampedBy(events[..m], t, arrival);
    RowAtIsLastRow(Built(events[..m]).rows, t, arrival);
    var rows, now := Built(events).rows, Built(events[..m]);
    forall i | 0 <= i < |now.rows| ensures rows[i] == now.rows[i] && now.rows[i] in now.rows {
      assert rows[..|now.rows|][i] == now.rows[i];
    }
  }

  /** Reconciling through the row an order meets brings the overlay up to every row heard. */
  lemma ReconciledOverlay(
    record: Record, cursor: map<Token, nat>, rows: seq<Row>, t: Token, row: nat, n: nat, o: Overlay)
    requires row < n <= |rows| && forall i :: row < i < n ==> rows[i].token != t
    requires o == OverlayOf(record, t)
    ensures OverlayOf(Reconciled(record, cursor, rows, t, row), t) == ReplayedIn(o, rows, t, Next(cursor, t), n)
  {
    hide TakenOn;
    ReplayedOverlay(record, rows, t, Next(cursor, t), row + 1, o);
    ReplaySkips(o, rows, t, Next(cursor, t), row + 1, n);
  }

  /** The ladder the tape simulator nets is the ladder the book has available. */
  lemma SameLadder(book: Book, row: Row, current: Record, t: Token, side: Side)
    requires Shows(row, book) && AgreeOn(book, Overlay(book.takenBids, book.takenAsks), OverlayOf(current, t))
    requires LevelsOk(book.bids) && LevelsOk(book.asks)
    ensures Net(TakerLadder(row, side), TakenOn(current, t, Resting(side))) == Available(book, side)
    ensures Positive(Available(book, side))
  {
    hide TakenOn;
    NetPositive(TakerLadder(row, side), TakenOn(current, t, Resting(side)));
    SameNet(TakerLadder(row, side), TakenOn(current, t, Resting(side)), if side.Buy? then book.takenAsks else book.takenBids);
  }

  lemma {:induction false} SameNet(ladder: Ladder, x: BookSide, y: BookSide)
    requires forall l <- ladder :: TakenAt(x, l.price) == TakenAt(y, l.price)
    ensures Net(ladder, x) == Net(ladder, y)
  {
    if ladder != [] {
      assert ladder[0] in ladder;
      SameNet(ladder[1..], x, y);
    }
  }

  /** What an order takes, both overlays note. */
  lemma {:induction false} TakingAgrees(side: BookSide, x: BookSide, y: BookSide, slices: seq<Slice>)
    requires SameTakenOn(side, x, y)
    ensures SameTakenOn(side, TakeAll(x, slices), TakeAll(y, slices))
  {
    if slices != [] { TakingAgrees(side, x, y, slices[..|slices| - 1]); }
  }

  /** One order: both simulators produce the same slices. */
  lemma AskSameFills(tape: EpisodeTape, r: Realism, v: View, l: Lazy, a: Action, n: nat)
    requires Comparable(r) && a.Ask? && a.arrival < tape.end && 0 < a.shares && tape.minimum <= a.shares
    requires !IsUncertain(tape.spans, a.token, a.arrival)
    requires v.book.Some? ==> v.book.value.valid && LevelsOk(v.book.value.bids) && LevelsOk(v.book.value.asks)
    requires var at := RowAt(tape.rows, a.token, a.arrival);
      && (at.None? <==> v.book.None?)
      && (at.Some? ==>
            && at.value < n <= |tape.rows| && Shows(tape.rows[at.value], v.book.value)
            && (forall i :: at.value < i < n ==> tape.rows[i].token != a.token)
            && AgreeOn(v.book.value, OverlayIn(v),
                       ReplayedIn(OverlayOf(l.record, a.token), tape.rows, a.token, Next(l.cursor, a.token), n)))
    ensures var reply := Sent(tape, r, l.record, l.cursor, OrderOf(a), a.arrival, None);
      var at := RowAt(tape.rows, a.token, a.arrival);
      && reply.outcome.slices == EagerFills(r.fee, v, a)
      && (at.None? ==> reply.record == l.record && reply.cursor == l.cursor)
      && (at.Some? ==>
            var current := Reconciled(l.record, l.cursor, tape.rows, a.token, at.value);
            && AgreeOn(v.book.value, OverlayIn(v), OverlayOf(current, a.token))
            && reply.record == Noted(current, a.token, Resting(a.side), reply.outcome.slices)
            && reply.cursor == Advanced(l.cursor, a.token, at.value))
  {
    hide TakenOn;
    var at := RowAt(tape.rows, a.token, a.arrival);
    if at.Some? {
      var current := Reconciled(l.record, l.cursor, tape.rows, a.token, at.value);
      ReconciledOverlay(l.record, l.cursor, tape.rows, a.token, at.value, n, OverlayOf(l.record, a.token));
      SameLadder(v.book.value, tape.rows[at.value], current, a.token, a.side);
      var ladder := Available(v.book.value, a.side);
      MatchedIsPlan(r, a, RequestOf(tape, r, OrderOf(a), a.arrival, at.value, ladder), ladder);
    }
  }

  /** After an order both overlays hold the same fills, and the cursor has passed the row it met. */
  lemma AskKeepsOwn(v: View, o: Overlay, rows: seq<Row>, b: Build, cursor: map<Token, nat>, a: Action,
                    row: nat, current: Record, slices: seq<Slice>)
    requires a.Ask? && v.book.Some? && row < |b.rows| <= |rows|
    requires forall i :: row < i < |b.rows| ==> rows[i].token != a.token
    requires Bare(v) == ViewIn(b, a.token) && Next(cursor, a.token) <= |b.rows|
    requires AgreeOn(v.book.value, OverlayIn(v), OverlayOf(current, a.token))
    requires o == OverlayOf(Noted(current, a.token, Resting(a.side), slices), a.token)
    ensures var w := v.(book := Some(Consumed(v.book.value, a.side, slices)));
      RelatedAt(w, o, Next(Advanced(cursor, a.token, row), a.token), b, rows, a.token)
  {
    hide TakenOn;
    TakeOnly(current, a.token, a.side, slices, a.token);
    var book, taken := v.book.value, OverlayOf(current, a.token);
    TakingAgrees(book.bids, book.takenBids, taken.bids, slices);
    TakingAgrees(book.asks, book.takenAsks, taken.asks, slices);
    ReplaySkips(o, rows, a.token, Next(Advanced(cursor, a.token, row), a.token), row + 1, |b.rows|);
  }

  lemma AskElsewhere(l: Lazy, rows: seq<Row>, token: Token, row: nat, side: Side, slices: seq<Slice>, t: Token)
    requires row < |rows| && t != token
    ensures OverlayOf(Noted(Reconciled(l.record, l.cursor, rows, token, row), token, Resting(side), slices), t)
         == OverlayOf(l.record, t)
    ensures Next(Advanced(l.cursor, token, row), t) == Next(l.cursor, t)
  {
    hide TakenOn;
    var current := Reconciled(l.record, l.cursor, rows, token, row);
    OverlayElsewhere(l.record, rows, token, Next(l.cursor, token), row + 1, t);
    TakeOnly(current, token, side, slices, t);
  }

  // ---- whole scripts ------------------------------------------------------------------------

  /** A tape recorded from the script's feed, and orders the reference simulator also accepts: before the
      close, of positive size and at or above the venue minimum. */
  ghost predicate Recorded(tape: EpisodeTape, script: seq<Action>)
  {
    var events := EventsOf(script);
    && InOrder(script) && Clean(events)
    && tape.rows == Built(events).rows && tape.spans == Spans(Built(events))
    && forall a <- script :: a.Ask? ==> a.arrival < tape.end && 0 < a.shares && tape.minimum <= a.shares
  }

  /** Before position `n`, whenever the reference simulator ignores a stale event, the event's row makes the
      tape simulator forget no consumption at a displayed price. */
  ghost predicate NothingLost(fee: FeeConfig, script: seq<Action>, n: nat)
    requires fee.Valid() && n <= |script|
  {
    forall i :: 0 <= i < n && script[i].Hear? ==> StaleHarmless(fee, script, i)
  }

  predicate StaleHarmless(fee: FeeConfig, script: seq<Action>, n: nat)
    requires fee.Valid() && n < |script| && script[n].Hear?
  {
    var event := script[n].event;
    var v := Seen(EagerRun(fee, script[..n]), event.token);
    Fed(v, event.feed).1.Stale? && v.book.Some? ==> Invisible(v.book.value, KindOf(event.feed))
  }

  lemma NothingUncertain(events: seq<Event>, t: Token, time: int)
    requires Clean(events)
    ensures !IsUncertain(Spans(Built(events)), t, time)
  {
    CleanBuild(events, t);
    assert |Prices(Buy, Built(events).pending.Keys)| == 0;
  }

  /** The events heard before position `n` are a prefix of all events. */
  lemma HeardPrefix(script: seq<Action>, n: nat)
    requires n <= |script|
    ensures EventsOf(script) == EventsOf(script[..n]) + EventsOf(script[n..])
  {
    assert script == script[..n] + script[n..];
    EventsSplit(script[..n], script[n..]);
  }

  /** An order at position `n` splits the feed by its arrival. */
  lemma AskSplitsFeed(script: seq<Action>, n: nat, i: nat)
    requires InOrder(script) && n < |script| && script[n].Ask? && i < |EventsOf(script)|
    ensures |EventsOf(script[..n])| <= |EventsOf(script)|
    ensures i < |EventsOf(script[..n])| <==> EventsOf(script)[i].time <= script[n].arrival
  {
    HeardPrefix(script, n);
    var e := EventsOf(script)[i];
    if i < |EventsOf(script[..n])| {
      assert e in EventsOf(script[..n]);
      EventHeard(script[..n], e);
      var j :| 0 <= j < n && script[j] == Hear(e);
      assert TimeOf(script[j]) <= TimeOf(script[n]);
    } else {
      assert e in EventsOf(script[n..]);
      EventHeard(script[n..], e);
      var j :| 0 <= j < |script| - n && script[n..][j] == Hear(e);
      assert script[n + j] == Hear(e) && j != 0;
      assert TimeOf(script[n]) < TimeOf(script[n + j]);
    }
  }

  /** The relation for one token and equal fills, after any prefix of the script. */
  ghost predicate InLockstep(tape: EpisodeTape, r: Realism, script: seq<Action>, n: nat, t: Token)
    requires r.Valid() && n <= |script|
  {
    var e, l, b := EagerRun(r.fee, script[..n]), LazyRun(tape, r, script[..n]), Built(EventsOf(script[..n]));
    && e.fills == l.fills
    && b.rows <= tape.rows
    && RelatedAt(Seen(e, t), OverlayOf(l.record, t), Next(l.cursor, t), b, tape.rows, t)
  }

  lemma EagerOneMore(fee: FeeConfig, script: seq<Action>, n: nat)
    requires fee.Valid() && n < |script|
    ensures EagerRun(fee, script[..n + 1]) == EagerStep(fee, EagerRun(fee, script[..n]), script[n])
    ensures n == 0 ==> EagerRun(fee, script[..n]) == Eager(map[], [])
  {
    hide EagerStep;
    assert script[..n + 1][..n] == script[..n];
  }

  lemma LazyOneMore(tape: EpisodeTape, r: Realism, script: seq<Action>, n: nat)
    requires r.Valid() && n < |script|
    ensures LazyRun(tape, r, script[..n + 1]) == LazyStep(tape, r, LazyRun(tape, r, script[..n]), script[n])
  {
    hide LazyStep;
    assert script[..n + 1][..n] == script[..n];
  }

  lemma EventsOneMore(script: seq<Action>, n: nat)
    requires n < |script|
    ensures EventsOf(script[..n + 1]) == EventsOf(script[..n]) + if script[n].Hear? then [script[n].event] else []
    ensures n == 0 ==> EventsOf(script[..n]) == []
  {
    assert script[..n + 1][..n] == script[..n];
  }

  lemma BuiltSnoc(events: seq<Event>, event: Event)
    ensures Built(events + [event]) == Step(Built(events), event)
  {
    hide Step;
    assert (events + [event])[..|events|] == events;
  }

  /** The event heard at position `n`, as the builder meets it. */
  lemma HeardNext(tape: EpisodeTape, script: seq<Action>, n: nat)
    requires Recorded(tape, script) && n < |script| && script[n].Hear?
    ensures var b, event := Built(EventsOf(script[..n])), script[n].event;
      && Built(EventsOf(script[..n + 1])) == Step(b, event)
      && Step(b, event).rows <= tape.rows
      && Heeded(ViewIn(b, event.token), event.feed)
  {
    hide Step, Fed, Built, ViewIn, InOrder;
    var event, events, heard := script[n].event, EventsOf(script), EventsOf(script[..n]);
    var m := |heard|;
    assert script[..n + 1][..n] == script[..n];
    HeardPrefix(script, n);
    HeardPrefix(script, n + 1);
    assert EventsOf(script[..n + 1]) == heard + [event];
    assert events[..m] == heard && events[..m + 1] == heard + [event] && events[m] == event;
    BuiltSnoc(heard, event);
    RowsGrow(events, m + 1);
  }

  lemma HearLockstep(tape: EpisodeTape, r: Realism, script: seq<Action>, n: nat, t: Token)
    requires Comparable(r) && Recorded(tape, script) && n < |script| && script[n].Hear?
    requires InLockstep(tape, r, script, n, t) && StaleHarmless(r.fee, script, n)
    ensures InLockstep(tape, r, script, n + 1, t)
  {
    hide Fed, Step, OverlayOf, EagerRun, LazyRun, Built, EventsOf, RelatedAt, Recorded;
    var event := script[n].event;
    EagerOneMore(r.fee, script, n);
    LazyOneMore(tape, r, script, n);
    EventsOneMore(script, n);
    HeardNext(tape, script, n);
    var e, l := EagerRun(r.fee, script[..n]), LazyRun(tape, r, script[..n]);
    var b := Built(EventsOf(script[..n]));
    if t == event.token {
      HearKeepsOwn(Seen(e, t), OverlayOf(l.record, t), Next(l.cursor, t), b, event, tape.rows);
    } else {
      HearKeepsOther(Seen(e, t), OverlayOf(l.record, t), Next(l.cursor, t), b, event, tape.rows, t);
    }
  }

  /** The row an order at position `n` meets, against the books heard by then. */
  lemma AskMeets(tape: EpisodeTape, script: seq<Action>, n: nat)
    requires Recorded(tape, script) && n < |script| && script[n].Ask?
    ensures var a, b := script[n], Built(EventsOf(script[..n]));
      var at, v := RowAt(tape.rows, a.token, a.arrival), ViewIn(b, a.token);
      && CleanView(v) && !IsUncertain(tape.spans, a.token, a.arrival)
      && (at.None? <==> v.book.None?)
      && (at.Some? ==>
            && at.value < |b.rows| && Shows(tape.rows[at.value], v.book.value)
            && forall i :: at.value < i < |b.rows| ==> i < |tape.rows| ==> tape.rows[i].token != a.token)
  {
    var a, events := script[n], EventsOf(script);
    HeardPrefix(script, n);
    var m := |EventsOf(script[..n])|;
    assert events[..m] == EventsOf(script[..n]);
    forall i | 0 <= i < |events| ensures i < m <==> events[i].time <= a.arrival { AskSplitsFeed(script, n, i); }
    AskMeetsBook(events, m, a.token, a.arrival);
    NothingUncertain(events, a.token, a.arrival);
  }

  lemma AskLockstep(tape: EpisodeTape, r: Realism, script: seq<Action>, n: nat, t: Token)
    requires Comparable(r) && Recorded(tape, script) && n < |script| && script[n].Ask?
    requires InLockstep(tape, r, script, n, t) && InLockstep(tape, r, script, n, script[n].token)
    ensures InLockstep(tape, r, script, n + 1, t)
  {
    hide OverlayOf, EagerRun, LazyRun, Built, EventsOf, TakenOn, Sent, ReplayedIn, Replayed, Noted,
      EagerFills, Consumed, CleanView, Shows, Clean, InOrder, IsUncertain, RowAt, Net, LevelsOk;
    var a := script[n];
    assert a in script;
    EagerOneMore(r.fee, script, n);
    LazyOneMore(tape, r, script, n);
    EventsOneMore(script, n);
    AskMeets(tape, script, n);
    var e, l := EagerRun(r.fee, script[..n]), LazyRun(tape, r, script[..n]);
    var b := Built(EventsOf(script[..n]));
    assert EventsOf(script[..n + 1]) == EventsOf(script[..n]);
    var v, at := Seen(e, a.token), RowAt(tape.rows, a.token, a.arrival);
    BareShows(v, b, a.token, tape.rows, at);
    AskSameFills(tape, r, v, l, a, |b.rows|);
    var reply := Sent(tape, r, l.record, l.cursor, OrderOf(a), a.arrival, None);
    if at.Some? {
      var current := Reconciled(l.record, l.cursor, tape.rows, a.token, at.value);
      var o := OverlayOf(reply.record, t);
      if t == a.token {
        AskKeepsOwn(v, o, tape.rows, b, l.cursor, a, at.value, current, reply.outcome.slices);
      } else {
        AskElsewhere(l, tape.rows, a.token, at.value, a.side, reply.outcome.slices, t);
      }
    }
  }

  /** A row shows a book with and without its overlay alike. */
  lemma BareShows(v: View, b: Build, t: Token, rows: seq<Row>, at: Option<nat>)
    requires Bare(v) == ViewIn(b, t) && CleanView(ViewIn(b, t))
    requires at.Some? ==> at.value < |rows| && ViewIn(b, t).book.Some? && Shows(rows[at.value], ViewIn(b, t).book.value)
    ensures v.book.Some? <==> ViewIn(b, t).book.Some?
    ensures v.book.Some? ==> v.book.value.valid && LevelsOk(v.book.value.bids) && LevelsOk(v.book.value.asks)
    ensures at.Some? ==> Shows(rows[at.value], v.book.value)
  {
  }

  lemma LockstepStart(tape: EpisodeTape, r: Realism, script: seq<Action>, t: Token)
    requires r.Valid()
    ensures InLockstep(tape, r, script, 0, t)
  {
  }

  lemma {:induction false} Lockstep(tape: EpisodeTape, r: Realism, script: seq<Action>, n: nat, t: Token)
    requires Comparable(r) && Recorded(tape, script) && n <= |script| && NothingLost(r.fee, script, n)
    ensures InLockstep(tape, r, script, n, t)
    decreases n
  {
    hide InLockstep, Recorded, StaleHarmless;
    if n == 0 {
      LockstepStart(tape, r, script, t);
    } else {
      Lockstep(tape, r, script, n - 1, t);
      if script[n - 1].Hear? {
        HearLockstep(tape, r, script, n - 1, t);
      } else {
        Lockstep(tape, r, script, n - 1, script[n - 1].token);
        AskLockstep(tape, r, script, n - 1, t);
      }
    }
  }

  /** The lazy overlay refines the eager one. For every feed that never raises, over any number of tokens,
      interleaved with orders in arrival order, the tape simulator gives each order exactly the fills the
      reference simulator gives it, unless a stale event meets consumption that its row forgets. */
  lemma LazyRefinesEager(tape: EpisodeTape, r: Realism, script: seq<Action>)
    requires Comparable(r) && Recorded(tape, script) && NothingLost(r.fee, script, |script|)
    ensures LazyRun(tape, r, script).fills == EagerRun(r.fee, script).fills
  {
    Lockstep(tape, r, script, |script|, 0);
    assert script[..|script|] == script;
  }
}
