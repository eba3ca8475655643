/** Where the two simulators part: a stale event after a fill. */
module StaleRows {
  import opened FixedPoint
  import opened Fees
  import opened Market
  import opened Ladders
  import opened TakerWalk
  import opened Books
  import opened Reconstruction
  import opened Tapes
  import opened SelfImpact
  import opened Sending
  import opened Execution
  import opened OverlayRefinement

  // ---- when a loss can be seen --------------------------------------------------------------

  /** The view as it would be after forgetting what a row of this kind forgets. */
  function Forgetful(v: View, kind: RowKind): View
    requires v.book.Some?
  {
    var o := ForgetIn(OverlayIn(v), kind);
    v.(book := Some(v.book.value.(takenBids := o.bids, takenAsks := o.asks)))
  }

  function DepthOf(levels: Ladder): nat { if levels == [] then 0 else levels[0].size + DepthOf(levels[1..]) }

  /** An order without a limit takes its size or everything there is. */
  lemma {:induction false} PlanTotal(fee: FeeConfig, intent: Intent, levels: Ladder, shares: nat, rank: nat)
    requires fee.Valid() && intent.limit.None? && Positive(levels)
    ensures TallyOf(Plan(fee, intent, levels, shares, rank)).size == Min(shares, DepthOf(levels))
  {
    if levels != [] && shares > 0 {
      assert levels[0] in levels;
      var size := Min(shares, levels[0].size);
      var first, rest := FillSlice(fee, levels[0].price, size, rank), Plan(fee, intent, levels[1..], shares - size, rank + 1);
      PlanTotal(fee, intent, levels[1..], shares - size, rank + 1);
      TallyConcat([first], rest);
      assert [first][..0] == [] && TallyOf([first]).size == size;
    }
  }

  /** Nothing more is taken in `less` than in `more`, and at no level more than it shows. */
  ghost predicate TakenLess(ladder: Ladder, less: BookSide, more: BookSide)
  {
    forall l <- ladder :: TakenAt(less, l.price) <= TakenAt(more, l.price) <= l.size
  }

  ghost predicate AlikeOnLadder(ladder: Ladder, less: BookSide, more: BookSide)
  {
    forall l <- ladder :: TakenAt(less, l.price) == TakenAt(more, l.price)
  }

  lemma LadderTaken(taker: Side, side: BookSide, less: BookSide, more: BookSide)
    ensures AlikeOnLadder(LadderOf(taker, side), less, more) <==> SameTakenOn(side, less, more)
  {
    if AlikeOnLadder(LadderOf(taker, side), less, more) {
      forall p | p in side ensures TakenAt(less, p) == TakenAt(more, p) { assert Level(p, side[p]) in LadderOf(taker, side); }
    }
  }

  lemma {:induction false} NetDepth(ladder: Ladder, less: BookSide, more: BookSide)
    requires TakenLess(ladder, less, more)
    ensures DepthOf(Net(ladder, more)) <= DepthOf(Net(ladder, less))
    ensures AlikeOnLadder(ladder, less, more) ==> Net(ladder, less) == Net(ladder, more)
    ensures !AlikeOnLadder(ladder, less, more) ==> DepthOf(Net(ladder, more)) < DepthOf(Net(ladder, less))
  {
    if ladder != [] {
      assert ladder[0] in ladder;
      NetDepth(ladder[1..], less, more);
      DepthCons(ladder, less);
      DepthCons(ladder, more);
    }
  }

  lemma DepthCons(ladder: Ladder, taken: BookSide)
    requires ladder != [] && TakenAt(taken, ladder[0].price) <= ladder[0].size
    ensures DepthOf(Net(ladder, taken)) == ladder[0].size - TakenAt(taken, ladder[0].price) + DepthOf(Net(ladder[1..], taken))
  {
    var left := ladder[0].size - TakenAt(taken, ladder[0].price);
    if left > 0 {
      assert ([Level(ladder[0].price, left)] + Net(ladder[1..], taken))[1..] == Net(ladder[1..], taken);
    }
  }

  /** Two views of one book that differ in their overlays alone, `w` with less of it. */
  ghost predicate Lighter(v: View, w: View)
  {
    && v.book.Some? && w.book.Some? && v.book.value.valid && w.book.value.valid
    && var b, c := v.book.value, w.book.value;
    && b.bids == c.bids && b.asks == c.asks && LevelsOk(b.bids) && LevelsOk(b.asks)
    && TakenLess(LadderOf(Buy, b.asks), c.takenAsks, b.takenAsks) && TakenLess(LadderOf(Sell, b.bids), c.takenBids, b.takenBids)
  }

  /** The overlays of the side an order takes from are the same at displayed prices. */
  ghost predicate Alike(v: View, w: View, side: Side)
    requires v.book.Some? && w.book.Some?
  {
    var b, c := v.book.value, w.book.value;
    if side.Buy? then AlikeOnLadder(LadderOf(Buy, b.asks), c.takenAsks, b.takenAsks)
    else AlikeOnLadder(LadderOf(Sell, b.bids), c.takenBids, b.takenBids)
  }

  /** Where they are, every order fills alike; where they are not, any order without a limit that takes all
      there is does not. */
  lemma SideSplits(fee: FeeConfig, v: View, w: View, a: Action)
    requires fee.Valid() && Lighter(v, w) && a.Ask?
    ensures Alike(v, w, a.side) ==> EagerFills(fee, v, a) == EagerFills(fee, w, a)
    ensures !Alike(v, w, a.side) && a.limit.None? && a.shares >= DepthOf(Available(w.book.value, a.side)) ==>
      EagerFills(fee, v, a) != EagerFills(fee, w, a)
  {
    hide Plan, Net, DepthOf, AlikeOnLadder, TakenLess;
    var b, c := v.book.value, w.book.value;
    var ladder := if a.side.Buy? then LadderOf(Buy, b.asks) else LadderOf(Sell, b.bids);
    var less, more := if a.side.Buy? then c.takenAsks else c.takenBids, if a.side.Buy? then b.takenAsks else b.takenBids;
    assert Positive(ladder);
    NetDepth(ladder, less, more);
    NetPositive(ladder, less);
    NetPositive(ladder, more);
    if a.limit.None? && a.shares >= 0 {
      PlanTotal(fee, IntentOf(a), Net(ladder, less), a.shares, 1);
      PlanTotal(fee, IntentOf(a), Net(ladder, more), a.shares, 1);
    }
  }

  /** An order that takes all one side offers. */
  function WholeSide(side: Side, shares: nat): Action { Ask(0, side, None, shares, 0) }

  /** A forgotten overlay changes the fills of some order exactly when it forgets consumption at a price on
      display. */
  lemma LossShowsIff(fee: FeeConfig, v: View, kind: RowKind)
    requires fee.Valid() && v.book.Some? && v.book.value.valid && Sound(v.book.value)
    ensures (forall a: Action :: a.Ask? ==> EagerFills(fee, v, a) == EagerFills(fee, Forgetful(v, kind), a))
       <==> Invisible(v.book.value, kind)
  {
    hide EagerFills, Alike, Invisible, Lighter;
    var w := Forgetful(v, kind);
    ForgottenLess(v, kind);
    InvisibleMeans(v, kind);
    if Invisible(v.book.value, kind) {
      forall a: Action | a.Ask? ensures EagerFills(fee, v, a) == EagerFills(fee, w, a) {
        assert a.side == Buy || a.side == Sell;
        SideSplits(fee, v, w, a);
      }
    } else {
      var side := if Alike(v, w, Buy) then Sell else Buy;
      var a := WholeSide(side, DepthOf(Available(w.book.value, side)));
      SideSplits(fee, v, w, a);
      assert EagerFills(fee, v, a) != EagerFills(fee, w, a);
    }
  }

  lemma ForgottenLess(v: View, kind: RowKind)
    requires v.book.Some? && v.book.value.valid && Sound(v.book.value)
    ensures Lighter(v, Forgetful(v, kind))
  {
  }

  lemma InvisibleMeans(v: View, kind: RowKind)
    requires v.book.Some?
    ensures Invisible(v.book.value, kind) <==> Alike(v, Forgetful(v, kind), Buy) && Alike(v, Forgetful(v, kind), Sell)
  {
    hide AlikeOnLadder;
    var b, c := v.book.value, Forgetful(v, kind).book.value;
    LadderTaken(Buy, b.asks, c.takenAsks, b.takenAsks);
    LadderTaken(Sell, b.bids, c.takenBids, b.takenBids);
  }

  // ---- the same over a run ------------------------------------------------------------------

  /** An order the script may go on with. */
  ghost predicate Follows(tape: EpisodeTape, script: seq<Action>, a: Action)
  {
    a.Ask? && a.arrival < tape.end && 0 < a.shares && tape.minimum <= a.shares && forall x <- script :: TimeOf(x) <= a.arrival
  }

  /** The script ends with a stale event of a registered book, and nothing was lost before it. */
  ghost predicate EndsStale(tape: EpisodeTape, r: Realism, script: seq<Action>)
    requires r.Valid()
  {
    && Recorded(tape, script) && script != [] && script[|script| - 1].Hear? && NothingLost(r.fee, script, |script| - 1)
    && var event := script[|script| - 1].event;
       var v := Seen(EagerRun(r.fee, script[..|script| - 1]), event.token);
    && v.book.Some? && Fed(v, event.feed).1.Stale? && event.time < tape.end
  }

  lemma FollowedRecorded(tape: EpisodeTape, script: seq<Action>, a: Action)
    requires Recorded(tape, script) && Follows(tape, script, a)
    ensures Recorded(tape, script + [a]) && EventsOf(script + [a]) == EventsOf(script)
  {
    hide Built, Clean, InOrder, EventsOf, Spans;
    AskAddsNoEvent(script, a);
    FollowedInOrder(script, a);
  }

  lemma AskAddsNoEvent(script: seq<Action>, a: Action)
    requires a.Ask?
    ensures EventsOf(script + [a]) == EventsOf(script)
  {
    assert (script + [a])[..|script|] == script && EventsOf(script) + [] == EventsOf(script);
  }

  lemma FollowedInOrder(script: seq<Action>, a: Action)
    requires InOrder(script) && a.Ask? && forall x <- script :: TimeOf(x) <= a.arrival
    ensures InOrder(script + [a])
  {
  }

  lemma FollowedLost(fee: FeeConfig, script: seq<Action>, a: Action)
    requires fee.Valid() && a.Ask? && NothingLost(fee, script, |script|)
    ensures NothingLost(fee, script + [a], |script| + 1)
  {
    hide StaleHarmless;
    var all := script + [a];
    forall i | 0 <= i < |all| && all[i].Hear? ensures StaleHarmless(fee, all, i) {
      assert StaleHarmless(fee, script, i);
      SamePast(fee, script, a, i);
    }
  }

  lemma SamePast(fee: FeeConfig, script: seq<Action>, a: Action, i: nat)
    requires fee.Valid() && i < |script| && script[i].Hear? && StaleHarmless(fee, script, i)
    ensures StaleHarmless(fee, script + [a], i)
  {
    assert (script + [a])[..i] == script[..i];
  }

  /** A harmless end loses nothing. */
  lemma EndHarmless(tape: EpisodeTape, r: Realism, script: seq<Action>)
    requires r.Valid() && EndsStale(tape, r, script)
    requires var event := script[|script| - 1].event;
      Invisible(Seen(EagerRun(r.fee, script[..|script| - 1]), event.token).book.value, KindOf(event.feed))
    ensures NothingLost(r.fee, script, |script|)
  {
    hide EagerRun, Recorded;
  }

  lemma ForgettingAgrees(b: Book, x: Overlay, y: Overlay, kind: RowKind)
    requires AgreeOn(b, x, y)
    ensures AgreeOn(b, ForgetIn(x, kind), ForgetIn(y, kind))
  {
  }

  /** The next order after the stale event: the reference simulator fills it from the view as it was, the tape
      simulator from the view without what the row forgets. */
  lemma NextFills(tape: EpisodeTape, r: Realism, script: seq<Action>, a: Action)
    requires Comparable(r) && EndsStale(tape, r, script) && Follows(tape, script, a)
    requires a.token == script[|script| - 1].event.token
    ensures var n := |script| - 1;
      var event, e := script[n].event, EagerRun(r.fee, script[..n]);
      var v := Seen(e, event.token);
      && v.book.Some? && v.book.value.valid
      && EagerRun(r.fee, script + [a]).fills == e.fills + [EagerFills(r.fee, v, a)]
      && LazyRun(tape, r, script + [a]).fills == e.fills + [EagerFills(r.fee, Forgetful(v, KindOf(event.feed)), a)]
  {
    hide EagerRun, LazyRun, Recorded, EagerFills, NothingLost, CleanView, Forgetful, Fed;
    NextEager(tape, r, script, a);
    NextLazy(tape, r, script, a);
  }

  lemma NextEager(tape: EpisodeTape, r: Realism, script: seq<Action>, a: Action)
    requires r.Valid() && EndsStale(tape, r, script) && a.Ask? && a.token == script[|script| - 1].event.token
    ensures var n := |script| - 1;
      var e := EagerRun(r.fee, script[..n]);
      EagerRun(r.fee, script + [a]).fills == e.fills + [EagerFills(r.fee, Seen(e, a.token), a)]
  {
    hide EagerRun, Recorded, EagerFills, NothingLost, Fed;
    var n, all := |script| - 1, script + [a];
    assert script[..n + 1] == script && all[..n + 1] == script && all[..n + 2] == all;
    EagerOneMore(r.fee, script, n);
    EagerOneMore(r.fee, all, n + 1);
    var event, v := script[n].event, Seen(EagerRun(r.fee, script[..n]), a.token);
    StaleSameBook(v, event.feed);
    SameBookFills(r.fee, v, Fed(v, event.feed).0, a);
  }

  lemma NextLazy(tape: EpisodeTape, r: Realism, script: seq<Action>, a: Action)
    requires Comparable(r) && EndsStale(tape, r, script) && Follows(tape, script, a)
    requires a.token == script[|script| - 1].event.token
    ensures var n := |script| - 1;
      var event, e := script[n].event, EagerRun(r.fee, script[..n]);
      var v := Seen(e, event.token);
      && v.book.Some? && v.book.value.valid
      && LazyRun(tape, r, script + [a]).fills == e.fills + [EagerFills(r.fee, Forgetful(v, KindOf(event.feed)), a)]
  {
    hide EagerRun, LazyRun, Built, EventsOf, Recorded, LazyStep, EagerFills, NothingLost, Fed, Step, OverlayOf, RelatedAt,
      CleanView, Forgetful, ViewIn, AgreeOn, RowAt, IsUncertain, Shows, Bare, ReplayedIn;
    var n, all := |script| - 1, script + [a];
    assert script[..n + 1] == script && all[..n + 1] == script && all[..n + 2] == all && all[n + 1] == a;
    LazyOneMore(tape, r, script, n);
    LazyOneMore(tape, r, all, n + 1);
    Lockstep(tape, r, script, n, a.token);
    HeardNext(tape, script, n);
    FollowedRecorded(tape, script, a);
    AskMeets(tape, all, n + 1);
    var v, l := Seen(EagerRun(r.fee, script[..n]), a.token), LazyRun(tape, r, script[..n]);
    LazyHears(tape, r, l, script[n]);
    StaleMeets(tape, r, v, l, Built(EventsOf(script[..n])), script[n].event, a);
  }

  lemma LazyHears(tape: EpisodeTape, r: Realism, l: Lazy, a: Action)
    requires r.Valid() && a.Hear?
    ensures LazyStep(tape, r, l, a) == l
  {
  }

  /** One order right after a stale event, in the tape simulator. */
  lemma StaleMeets(tape: EpisodeTape, r: Realism, v: View, l: Lazy, b: Build, event: Event, a: Action)
    requires Comparable(r) && a.Ask? && a.arrival < tape.end && 0 < a.shares && tape.minimum <= a.shares
    requires a.token == event.token && v.book.Some? && Fed(v, event.feed).1.Stale?
    requires |b.rows| <= |tape.rows| && Step(b, event).rows <= tape.rows && Heeded(ViewIn(b, a.token), event.feed)
    requires RelatedAt(v, OverlayOf(l.record, a.token), Next(l.cursor, a.token), b, tape.rows, a.token)
    requires !IsUncertain(tape.spans, a.token, a.arrival)
    requires var at, next := RowAt(tape.rows, a.token, a.arrival), Step(b, event);
      && CleanView(ViewIn(next, a.token)) && (at.None? <==> ViewIn(next, a.token).book.None?)
      && (at.Some? ==>
            && at.value < |next.rows| && Shows(tape.rows[at.value], ViewIn(next, a.token).book.value)
            && forall i :: at.value < i < |next.rows| ==> i < |tape.rows| ==> tape.rows[i].token != a.token)
    ensures v.book.value.valid
    ensures LazyStep(tape, r, l, a).fills == l.fills + [EagerFills(r.fee, Forgetful(v, KindOf(event.feed)), a)]
  {
    hide LazyStep, EagerFills, Fed, Step, OverlayOf, AgreeOn, RowAt, IsUncertain, Shows, ReplayedIn, ForgetIn;
    var w, next, kind := Fed(v, event.feed).0, Step(b, event), KindOf(event.feed);
    StaleSameBook(v, event.feed);
    FedBare(v, event.feed);
    StepOwn(b, event);
    StaleRelated(v, w, OverlayOf(l.record, a.token), Next(l.cursor, a.token), b, next, event, tape.rows);
    ForgetfulFills(tape, r, Forgetful(w, kind), l, next, a);
    SameBookFills(r.fee, Forgetful(v, kind), Forgetful(w, kind), a);
    BareClean(w, ViewIn(next, a.token));
    BareClean(v, ViewIn(b, a.token));
  }

  lemma BareClean(v: View, w: View)
    requires Bare(v) == w && v.book.Some?
    ensures w.book.Some? && w.book.value.valid == v.book.value.valid
  {
  }

  /** The recorded consumption, replayed through the stale event's row as well, agrees with the view without
      what the row forgets. */
  lemma StaleRelated(v: View, w: View, o: Overlay, lo: nat, b: Build, next: Build, event: Event, rows: seq<Row>)
    requires |b.rows| <= |rows| && RelatedAt(v, o, lo, b, rows, event.token) && v.book.Some? && w.book == v.book
    requires next == Step(b, event) && next.rows <= rows && |next.rows| == |b.rows| + 1
    requires rows[|b.rows|].token == event.token && rows[|b.rows|].kind == KindOf(event.feed)
    ensures AgreeOn(Forgetful(w, KindOf(event.feed)).book.value, OverlayIn(Forgetful(w, KindOf(event.feed))),
                    ReplayedIn(o, rows, event.token, lo, |next.rows|))
  {
    hide ForgetIn, Step;
    var y := ReplayedIn(o, rows, event.token, lo, |b.rows|);
    ForgettingAgrees(v.book.value, OverlayIn(v), y, KindOf(event.feed));
  }

  lemma ForgetfulFills(tape: EpisodeTape, r: Realism, w: View, l: Lazy, b: Build, a: Action)
    requires Comparable(r) && a.Ask? && a.arrival < tape.end && 0 < a.shares && tape.minimum <= a.shares
    requires Bare(w) == ViewIn(b, a.token) && CleanView(ViewIn(b, a.token)) && w.book.Some? && |b.rows| <= |tape.rows|
    requires AgreeOn(w.book.value, OverlayIn(w),
                     ReplayedIn(OverlayOf(l.record, a.token), tape.rows, a.token, Next(l.cursor, a.token), |b.rows|))
    requires !IsUncertain(tape.spans, a.token, a.arrival)
    requires var at := RowAt(tape.rows, a.token, a.arrival);
      && at.Some? && at.value < |b.rows| && Shows(tape.rows[at.value], ViewIn(b, a.token).book.value)
      && forall i :: at.value < i < |b.rows| ==> tape.rows[i].token != a.token
    ensures LazyStep(tape, r, l, a).fills == l.fills + [EagerFills(r.fee, w, a)]
  {
    hide OverlayOf, Sent, ReplayedIn, EagerFills, Shows, CleanView, RowAt, AgreeOn, IsUncertain, LevelsOk;
    BareShows(w, b, a.token, tape.rows, RowAt(tape.rows, a.token, a.arrival));
    AskSameFills(tape, r, w, l, a, |b.rows|);
  }

  /** After a prefix that loses nothing, a stale event keeps the fills of every order that may come next equal
      in both simulators exactly when its row forgets no consumption at a displayed price. */
  lemma StaleRunShowsIff(tape: EpisodeTape, r: Realism, script: seq<Action>)
    requires Comparable(r) && EndsStale(tape, r, script)
    ensures var event := script[|script| - 1].event;
      (forall a: Action :: Follows(tape, script, a) ==> LazyRun(tape, r, script + [a]).fills == EagerRun(r.fee, script + [a]).fills)
      <==> Invisible(Seen(EagerRun(r.fee, script[..|script| - 1]), event.token).book.value, KindOf(event.feed))
  {
    hide EagerRun, LazyRun, Recorded, NothingLost, Invisible, EagerFills, Alike, Lighter, CleanView, Fed, InOrder;
    var n := |script| - 1;
    var event := script[n].event;
    var v, kind := Seen(EagerRun(r.fee, script[..n]), event.token), KindOf(event.feed);
    if Invisible(v.book.value, kind) {
      EndHarmless(tape, r, script);
      forall a: Action | Follows(tape, script, a)
        ensures LazyRun(tape, r, script + [a]).fills == EagerRun(r.fee, script + [a]).fills
      {
        FollowedRecorded(tape, script, a);
        FollowedLost(r.fee, script, a);
        LazyRefinesEager(tape, r, script + [a]);
      }
    } else {
      LastStamped(tape, script);
      var w, probe := Forgetful(v, kind), Ask(event.token, Buy, None, Max(1, tape.minimum), event.time);
      NextFills(tape, r, script, probe);
      EagerSound(r.fee, script[..n], event.token);
      ForgottenLess(v, kind);
      InvisibleMeans(v, kind);
      var side := if Alike(v, w, Buy) then Sell else Buy;
      var size := Max(Max(1, tape.minimum), DepthOf(Available(w.book.value, side)));
      var a := Ask(event.token, side, None, size, event.time);
      SideSplits(r.fee, v, w, a);
      NextFills(tape, r, script, a);
      LastDiffers(EagerRun(r.fee, script[..n]).fills, EagerFills(r.fee, v, a), EagerFills(r.fee, w, a));
      assert Follows(tape, script, a) && LazyRun(tape, r, script + [a]).fills != EagerRun(r.fee, script + [a]).fills;
    }
  }

  /** The reference simulator never takes more than is displayed. */
  lemma {:induction false} EagerSound(fee: FeeConfig, script: seq<Action>, t: Token)
    requires fee.Valid()
    ensures var v := Seen(EagerRun(fee, script), t); v.book.Some? ==> Sound(v.book.value)
  {
    hide Fed, EagerFills, Sound;
    if script != [] {
      var init, a := script[..|script| - 1], script[|script| - 1];
      EagerSound(fee, init, t);
      var v := Seen(EagerRun(fee, init), t);
      if a.Hear? {
        FedSound(v, a.event.feed);
      } else if v.book.Some? {
        EagerFillsSound(fee, v, a);
      }
    }
  }

  lemma EagerFillsSound(fee: FeeConfig, v: View, a: Action)
    requires fee.Valid() && a.Ask? && v.book.Some? && Sound(v.book.value)
    ensures Sound(Consumed(v.book.value, a.side, EagerFills(fee, v, a)))
  {
    hide Plan;
    var b, fills := v.book.value, EagerFills(fee, v, a);
    if a.side.Buy? {
      NetKeepsOrder(Buy, LadderOf(Buy, b.asks), b.takenAsks);
      PlanTakes(fee, IntentOf(a), Buy, Available(b, Buy), a.shares, 1);
      TakingStaysCovered(Buy, b.asks, b.takenAsks, fills);
    } else {
      NetKeepsOrder(Sell, LadderOf(Sell, b.bids), b.takenBids);
      PlanTakes(fee, IntentOf(a), Sell, Available(b, Sell), a.shares, 1);
      TakingStaysCovered(Sell, b.bids, b.takenBids, fills);
    }
  }

  lemma LastDiffers(fills: seq<seq<Slice>>, x: seq<Slice>, y: seq<Slice>)
    requires x != y
    ensures fills + [x] != fills + [y]
  {
    assert (fills + [x])[|fills|] == x && (fills + [y])[|fills|] == y;
  }

  lemma LastStamped(tape: EpisodeTape, script: seq<Action>)
    requires script != [] && Recorded(tape, script)
    ensures forall x <- script :: TimeOf(x) <= TimeOf(script[|script| - 1])
  {
  }

  lemma StaleSameBook(v: View, f: Feed)
    requires Fed(v, f).1.Stale? && v.book.Some?
    ensures Fed(v, f).0.book == v.book
  {
  }

  lemma SameBookFills(fee: FeeConfig, v: View, w: View, a: Action)
    requires fee.Valid() && a.Ask? && v.book == w.book
    ensures EagerFills(fee, v, a) == EagerFills(fee, w, a)
  {
  }

  // ---- a script on which the fills part -----------------------------------------------------

  function Opening(): Event
  {
    Event(0, 0, SnapshotFeed(Snapshot(1, 1, 9, false, 10_000, 0, [], [RawLevel(500_000, 5)])))
  }

  function Late(): Event { Event(0, 2, ChangeFeed(Change(1, 3, Sell, 500_000, 5, None, None))) }

  /** A snapshot, a buy of all it shows, an update older than the snapshot, and the same buy again. */
  ghost predicate Scene(script: seq<Action>)
  {
    script == [Hear(Opening()), Ask(0, Buy, None, 5, 1), Hear(Late()), Ask(0, Buy, None, 5, 3)]
  }

  function Shown(): Book { Book(1, 1, map[], map[500_000 := 5], map[], map[], 10_000, 0, 9, true) }

  /** What the feed builds: the book, and two rows that show it. */
  lemma FeedBuilds(events: seq<Event>, b: Build)
    requires events == [Opening(), Late()] && b == Built(events)
    ensures ViewIn(b, 0) == View(Some(Shown()), Some(10_000)) && b.pending == map[] && b.uncertainty == []
    ensures b.rows == [RowOf(Opening(), Shown()), RowOf(Late(), Shown())]
    ensures Built([Opening()]).rows == [RowOf(Opening(), Shown())]
    ensures ViewIn(Built([Opening()]), 0) == View(Some(Shown()), Some(10_000))
  {
    hide RowOf;
    OpeningLoads(Opening());
    LateIsStale(View(Some(Shown()), Some(10_000)), Late());
    assert events[..1] == [Opening()] && [Opening()][..0] == [];
  }

  lemma OpeningLoads(e: Event)
    requires e == Opening()
    ensures Fed(UNSEEN, e.feed) == (View(Some(Shown()), Some(10_000)), Applied)
  {
    var s := e.feed.snapshot;
    assert s.asks[..0] == [] && s.asks == [RawLevel(500_000, 5)];
    assert BuildSide(s.bids, 10_000) == Building(map[], false);
    assert BuildSide(s.asks, 10_000) == Building(map[500_000 := 5], false);
  }

  lemma LateIsStale(v: View, e: Event)
    requires v.book.Some? && v.book.value.valid && v.book.value.condition == 1 && v.book.value.lastSequence == 9 && e == Late()
    ensures Fed(v, e.feed) == (v, Stale)
  {
  }

  lemma OneAsk(taker: Side)
    ensures taker.Buy? ==> LadderOf(taker, map[500_000 := 5]) == [Level(500_000, 5)]
  {
    var side: BookSide := map[500_000 := 5];
    var ladder := LadderOf(taker, side);
    assert Level(500_000, side[500_000]) in ladder;
  }

  /** The first buy takes all five; the second finds nothing, because the stale update changed nothing. */
  lemma EagerFillsOnce(fee: FeeConfig, script: seq<Action>)
    requires fee.Valid() && Scene(script)
    ensures var e := EagerRun(fee, script[..2]);
      e.fills == [[FillSlice(fee, 500_000, 5, 1)]] && OverlayIn(Seen(e, 0)) == Overlay(map[], map[500_000 := 5])
    ensures EagerRun(fee, script).fills == [[FillSlice(fee, 500_000, 5, 1)], []]
  {
    hide EagerStep, EagerRun, FillSlice;
    var v0 := View(Some(Shown()), Some(10_000));
    var v1 := v0.(book := Some(Shown().(takenAsks := map[500_000 := 5])));
    var e0 := Eager(map[0 := v0], []);
    var e1 := Eager(map[0 := v1], [[FillSlice(fee, 500_000, 5, 1)]]);
    EagerOneMore(fee, script, 0);
    OpeningLoads(script[0].event);
    EagerHears(fee, Eager(map[], []), script[0], v0);
    EagerOneMore(fee, script, 1);
    FirstBuy(fee, e0, script[1], v0, v1);
    EagerOneMore(fee, script, 2);
    LateIsStale(v1, script[2].event);
    EagerHears(fee, e1, script[2], v1);
    assert e1.views[0 := v1] == e1.views;
    EagerOneMore(fee, script, 3);
    SecondBuy(fee, e1, script[3], v1);
    assert script[..4] == script;

  }

  lemma EagerHears(fee: FeeConfig, e: Eager, a: Action, w: View)
    requires fee.Valid() && a.Hear? && a.event.token == 0
    requires Fed(Seen(e, 0), a.event.feed).0 == w
    ensures EagerStep(fee, e, a) == e.(views := e.views[0 := w])
  {
  }

  lemma FirstBuy(fee: FeeConfig, e: Eager, a: Action, v: View, w: View)
    requires fee.Valid() && a == Ask(0, Buy, None, 5, 1) && Seen(e, 0) == v && e.fills == [] && e.views.Keys == {0}
    requires v == View(Some(Shown()), Some(10_000)) && w == v.(book := Some(Shown().(takenAsks := map[500_000 := 5])))
    ensures EagerStep(fee, e, a) == Eager(map[0 := w], [[FillSlice(fee, 500_000, 5, 1)]])
  {
    var slice := FillSlice(fee, 500_000, 5, 1);
    OneAsk(Buy);
    WholeOffer(fee, IntentOf(a), [Level(500_000, 5)]);
    NetOfNothing([Level(500_000, 5)], map[]);
    assert Available(Shown(), Buy) == [Level(500_000, 5)];
    assert [slice][..0] == [] && TakeAll(map[], [slice]) == map[500_000 := 5];
  }

  lemma WholeOffer(fee: FeeConfig, intent: Intent, levels: Ladder)
    requires fee.Valid() && intent.limit.None? && levels == [Level(500_000, 5)]
    ensures Plan(fee, intent, levels, 5, 1) == [FillSlice(fee, 500_000, 5, 1)]
  {
    assert levels[1..] == [];
  }

  lemma SecondBuy(fee: FeeConfig, e: Eager, a: Action, w: View)
    requires fee.Valid() && a == Ask(0, Buy, None, 5, 3) && Seen(e, 0) == w && |e.fills| == 1
    requires w == View(Some(Shown().(takenAsks := map[500_000 := 5])), Some(10_000))
    ensures EagerStep(fee, e, a).fills == e.fills + [[]]
  {
    OneAsk(Buy);
    assert [Level(500_000, 5)][1..] == [];
  }

  /** The recorded tape of the scene. */
  lemma SceneRecorded(tape: EpisodeTape, script: seq<Action>)
    requires Scene(script) && tape.rows == Built([Opening(), Late()]).rows && tape.spans == [] && tape.end > 3 && tape.minimum <= 5
    ensures EventsOf(script) == [Opening(), Late()] && EventsOf(script[..1]) == [Opening()] == EventsOf(script[..2])
    ensures EventsOf(script[..0]) == []
    ensures Recorded(tape, script)
  {
    hide Built, Fed, Opening, Late;
    SceneEvents(script);
    var events := [Opening(), Late()];
    FeedBuilds(events, Built(events));
    OpeningLoads(Opening());
    LateIsStale(View(Some(Shown()), Some(10_000)), Late());
    SceneClean(events);
    SceneTimes(script);
    assert Prices(Buy, {}) == [];
    assert OpenSpans(map[]) == [];
  }

  lemma SceneEvents(script: seq<Action>)
    requires Scene(script)
    ensures EventsOf(script) == [Opening(), Late()] && EventsOf(script[..1]) == [Opening()] == EventsOf(script[..2])
    ensures EventsOf(script[..0]) == []
  {
    hide Opening, Late, EventsOf;
    EventsOneMore(script, 0);
    EventsOneMore(script, 1);
    EventsOneMore(script, 2);
    EventsOneMore(script, 3);
    assert script[..4] == script;
  }

  lemma SceneTimes(script: seq<Action>)
    requires Scene(script)
    ensures InOrder(script)
  {
  }

  lemma SceneClean(events: seq<Event>)
    requires events == [Opening(), Late()]
    ensures Clean(events)
  {
    hide Fed;
    FeedBuilds(events, Built(events));
    OpeningLoads(Opening());
    LateIsStale(View(Some(Shown()), Some(10_000)), Late());
    assert events[..0] == [] && events[..1] == [Opening()];
  }

  /** The tape simulator: the row of the stale update forgets the first buy, so the second fills again. */
  lemma LazyFillsTwice(tape: EpisodeTape, r: Realism, script: seq<Action>)
    requires Comparable(r) && Scene(script) && tape.rows == Built([Opening(), Late()]).rows && tape.spans == []
    requires tape.end > 3 && tape.minimum <= 5
    ensures LazyRun(tape, r, script).fills == [[FillSlice(r.fee, 500_000, 5, 1)], [FillSlice(r.fee, 500_000, 5, 1)]]
  {
    hide Sent, LazyRun, FillSlice, Recorded, Built, Opening, Late, EagerRun, Fed, ReplayedIn, OverlayOf;
    SceneRecorded(tape, script);
    FeedBuilds([Opening(), Late()], Built([Opening(), Late()]));
    EagerFillsOnce(r.fee, script);
    FirstHarmless(r.fee, script);
    Lockstep(tape, r, script, 2, 0);
    var e, l, b := EagerRun(r.fee, script[..2]), LazyRun(tape, r, script[..2]), Built(EventsOf(script[..2]));
    assert l.fills == e.fills && |b.rows| == 1;
assert Next(l.cursor, 0) <= 1;
    LazyOneMore(tape, r, script, 2);
    LazyOneMore(tape, r, script, 3);
    AskAgain(tape, r, l, script[3]);
    assert script[..4] == script;
  }

  lemma FirstHarmless(fee: FeeConfig, script: seq<Action>)
    requires fee.Valid() && Scene(script)
    ensures NothingLost(fee, script, 2)
  {
    hide EagerRun, Fed;
    EagerOneMore(fee, script, 0);
  }

  lemma AskAgain(tape: EpisodeTape, r: Realism, l: Lazy, a: Action)
    requires Comparable(r) && a == Ask(0, Buy, None, 5, 3) && tape.end > 3 && tape.minimum <= 5 && tape.spans == []
    requires tape.rows == [RowOf(Opening(), Shown()), RowOf(Late(), Shown())]
    requires Next(l.cursor, 0) <= 1
    ensures LazyStep(tape, r, l, a).fills == l.fills + [[FillSlice(r.fee, 500_000, 5, 1)]]
  {
    hide OverlayOf, FillSlice, Matched, Noted, Replayed;
    var ladder := [Level(500_000, 5)];
    OneAsk(Buy);
    assert RowAt(tape.rows, 0, 3) == Some(1);
    var current := Reconciled(l.record, l.cursor, tape.rows, 0, 1);
    ReconciledOverlay(l.record, l.cursor, tape.rows, 0, 1, 2, OverlayOf(l.record, 0));
    assert AgreeOn(Shown(), Overlay(map[], map[]), OverlayOf(current, 0));
    SameLadder(Shown(), tape.rows[1], current, 0, Buy);
    NetOfNothing(ladder, map[]);
    var q := RequestOf(tape, r, OrderOf(a), 3, 1, ladder);
    MatchedIsPlan(r, a, q, ladder);
    WholeOffer(r.fee, IntentOf(a), ladder);
  }

  /** A script without a rejected event on which the two simulators give different fills. */
  lemma StaleUpdateSplitsFills(tape: EpisodeTape, r: Realism, script: seq<Action>)
    requires Comparable(r) && Scene(script) && tape.rows == Built([Opening(), Late()]).rows && tape.spans == []
    requires tape.end > 3 && tape.minimum <= 5
    ensures Recorded(tape, script)
    ensures LazyRun(tape, r, script).fills != EagerRun(r.fee, script).fills
  {
    hide Recorded, LazyRun, EagerRun, FillSlice;
    SceneRecorded(tape, script);
    EagerFillsOnce(r.fee, script);
    LazyFillsTwice(tape, r, script);
  }
}