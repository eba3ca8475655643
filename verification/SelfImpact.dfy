/** Simulated consumption in the tape simulator: a flat record keyed by token, resting side and
    price, brought up to date lazily through a per-token row cursor. */
module SelfImpact {
  import opened FixedPoint
  import opened Market
  import opened Ladders
  import opened Reconstruction
  import opened Tapes

  /** `side` is the resting side: `Buy` for bids, `Sell` for asks. */
  datatype Key = Key(token: Token, side: Side, price: nat)

  type Record = map<Key, nat>

  function Resting(taker: Side): Side { if taker.Buy? then Sell else Buy }

  /** Consumption recorded on one side of one token. */
  function TakenOn(record: Record, token: Token, side: Side): BookSide
  {
    map p | p in (set k | k in record && k.token == token && k.side == side :: k.price)
      :: record[Key(token, side, p)]
  }

  /** What a row says about consumption: a snapshot forgets all of the token's, an update forgets the
      restated side and price. */
  function Forget(record: Record, token: Token, kind: RowKind): Record
  {
    match kind
    case SnapshotRow => map k | k in record && k.token != token :: record[k]
    case TickRow => record
    case UpdateRow(side, price) => if price < 0 then record else record - {Key(token, side, price)}
  }

  /** Replays the token's rows with indices in `lo..hi`. */
  function Replayed(record: Record, rows: seq<Row>, token: Token, lo: nat, hi: nat): Record
    requires hi <= |rows|
    decreases hi
  {
    if hi <= lo then record
    else
      var before := Replayed(record, rows, token, lo, hi - 1);
      if rows[hi - 1].token == token then Forget(before, token, rows[hi - 1].kind) else before
  }

  /** Rows up to `through` are folded in; the cursor never moves back. */
  function Reconciled(record: Record, cursor: map<Token, nat>, rows: seq<Row>, token: Token, through: nat): Record
    requires through < |rows|
  {
    Replayed(record, rows, token, if token in cursor then cursor[token] + 1 else 0, through + 1)
  }

  function Advanced(cursor: map<Token, nat>, token: Token, through: nat): map<Token, nat>
  {
    if token in cursor && through <= cursor[token] then cursor else cursor[token := through]
  }

  /** Adds a fill to the record. */
  function Noted(record: Record, token: Token, side: Side, slices: seq<Slice>): Record
  {
    if slices == [] then record
    else
      var before := Noted(record, token, side, slices[..|slices| - 1]);
      var s := slices[|slices| - 1];
      var key := Key(token, side, s.price);
      before[key := (if key in before then before[key] else 0) + s.size]
  }

  /** Both sides of one token's consumption. */
  datatype Overlay = Overlay(bids: BookSide, asks: BookSide)

  function OverlayOf(record: Record, token: Token): Overlay
  {
    Overlay(TakenOn(record, token, Buy), TakenOn(record, token, Sell))
  }

  function ForgetIn(o: Overlay, kind: RowKind): Overlay
  {
    match kind
    case SnapshotRow => Overlay(map[], map[])
    case TickRow => o
    case UpdateRow(side, price) =>
      if price < 0 then o
      else if side.Buy? then o.(bids := o.bids - {price as nat}) else o.(asks := o.asks - {price as nat})
  }

  function ReplayedIn(o: Overlay, rows: seq<Row>, token: Token, lo: nat, hi: nat): Overlay
    requires hi <= |rows|
    decreases hi
  {
    if hi <= lo then o
    else
      var before := ReplayedIn(o, rows, token, lo, hi - 1);
      if rows[hi - 1].token == token then ForgetIn(before, rows[hi - 1].kind) else before
  }

  lemma TakenOnAt(record: Record, token: Token, side: Side, p: nat)
    ensures p in TakenOn(record, token, side) <==> Key(token, side, p) in record
    ensures p in TakenOn(record, token, side) ==> TakenOn(record, token, side)[p] == record[Key(token, side, p)]
  {
  }

  lemma SameTaken(record: Record, token: Token, side: Side, expected: BookSide)
    requires forall p: nat :: p in expected <==> Key(token, side, p) in record
    requires forall p <- expected :: expected[p] == record[Key(token, side, p)]
    ensures TakenOn(record, token, side) == expected
  {
  }

  /** One side of a token's overlay after a row of some token. */
  function ForgottenSide(record: Record, token: Token, kind: RowKind, t: Token, side: Side): BookSide
  {
    var o := if t == token then ForgetIn(OverlayOf(record, t), kind) else OverlayOf(record, t);
    if side.Buy? then o.bids else o.asks
  }

  lemma ForgetAt(record: Record, token: Token, kind: RowKind, t: Token, side: Side, p: nat)
    ensures var k, taken := Key(t, side, p), ForgottenSide(record, token, kind, t, side);
      && (p in taken <==> k in Forget(record, token, kind))
      && (p in taken ==> taken[p] == Forget(record, token, kind)[k])
  {
    hide TakenOn;
    TakenOnAt(record, t, side, p);
    match kind
    case SnapshotRow =>
    case TickRow =>
    case UpdateRow(s, price) =>
  }

  /** Forgetting in the flat record is forgetting in the token's own overlay, and leaves every other
      token alone. */
  lemma ForgetSide(record: Record, token: Token, kind: RowKind, t: Token, side: Side)
    ensures TakenOn(Forget(record, token, kind), t, side) == ForgottenSide(record, token, kind, t, side)
  {
    hide TakenOn, Forget, ForgottenSide;
    var taken := ForgottenSide(record, token, kind, t, side);
    forall p: nat
      ensures p in taken <==> Key(t, side, p) in Forget(record, token, kind)
      ensures p in taken ==> taken[p] == Forget(record, token, kind)[Key(t, side, p)]
    {
      ForgetAt(record, token, kind, t, side, p);
    }
    SameTaken(Forget(record, token, kind), t, side, taken);
  }

  lemma ForgetOverlay(record: Record, token: Token, kind: RowKind, t: Token)
    ensures OverlayOf(Forget(record, token, kind), t)
         == if t == token then ForgetIn(OverlayOf(record, t), kind) else OverlayOf(record, t)
  {
    ForgetSide(record, token, kind, t, Buy);
    ForgetSide(record, token, kind, t, Sell);
  }

  lemma {:induction false} ReplayedOverlay(
    record: Record, rows: seq<Row>, token: Token, lo: nat, hi: nat, o: Overlay)
    requires hi <= |rows| && o == OverlayOf(record, token)
    ensures OverlayOf(Replayed(record, rows, token, lo, hi), token) == ReplayedIn(o, rows, token, lo, hi)
    decreases hi
  {
    if hi > lo {
      ReplayedOverlay(record, rows, token, lo, hi - 1, o);
      ForgetOverlay(Replayed(record, rows, token, lo, hi - 1), token, rows[hi - 1].kind, token);
    }
  }

  /** Replaying one token's rows leaves the keys of every other token as they were. */
  lemma {:induction false} ReplayedElsewhere(record: Record, rows: seq<Row>, token: Token, lo: nat, hi: nat, k: Key)
    requires hi <= |rows| && k.token != token
    ensures k in Replayed(record, rows, token, lo, hi) <==> k in record
    ensures k in record ==> Replayed(record, rows, token, lo, hi)[k] == record[k]
    decreases hi
  {
    if hi > lo { ReplayedElsewhere(record, rows, token, lo, hi - 1, k); }
  }

  lemma OverlayElsewhere(record: Record, rows: seq<Row>, token: Token, lo: nat, hi: nat, t: Token)
    requires hi <= |rows| && t != token
    ensures OverlayOf(Replayed(record, rows, token, lo, hi), t) == OverlayOf(record, t)
  {
    var after := Replayed(record, rows, token, lo, hi);
    forall side: Side, p: nat
      ensures p in TakenOn(record, t, side) <==> Key(t, side, p) in after
      ensures p in TakenOn(record, t, side) ==> TakenOn(record, t, side)[p] == after[Key(t, side, p)]
    {
      TakenOnAt(record, t, side, p);
      ReplayedElsewhere(record, rows, token, lo, hi, Key(t, side, p));
    }
    SameTaken(after, t, Buy, TakenOn(record, t, Buy));
    SameTaken(after, t, Sell, TakenOn(record, t, Sell));
  }

  /** Adding at one key of the record is taking at one price of its side. */
  lemma TakenSide(record: Record, key: Key, size: nat, t: Token, s: Side)
    ensures var after := record[key := (if key in record then record[key] else 0) + size];
      TakenOn(after, t, s)
        == if t == key.token && s == key.side then Take(TakenOn(record, t, s), key.price, size) else TakenOn(record, t, s)
  {
    hide TakenOn;
    var after := record[key := (if key in record then record[key] else 0) + size];
    var taken := TakenOn(record, t, s);
    var expected := if t == key.token && s == key.side then Take(taken, key.price, size) else taken;
    TakenOnAt(record, t, s, key.price);
    forall p: nat
      ensures p in expected <==> Key(t, s, p) in after
      ensures p in expected ==> expected[p] == after[Key(t, s, p)]
    {
      TakenOnAt(record, t, s, p);
    }
    SameTaken(after, t, s, expected);
  }

  lemma {:induction false} NotedSide(record: Record, token: Token, side: Side, slices: seq<Slice>, t: Token, s: Side)
    ensures TakenOn(Noted(record, token, side, slices), t, s)
         == if t == token && s == side then TakeAll(TakenOn(record, t, s), slices) else TakenOn(record, t, s)
  {
    hide TakenOn;
    if slices != [] {
      var init, last := slices[..|slices| - 1], slices[|slices| - 1];
      NotedSide(record, token, side, init, t, s);
      TakenSide(Noted(record, token, side, init), Key(token, side, last.price), last.size, t, s);
    }
  }

  /** An empty record takes nothing from a ladder. */
  lemma NothingTaken(rows: seq<Row>, row: nat, ladder: Ladder)
    requires row < |rows| && Positive(ladder)
    ensures Net(ladder, TakenOn(Reconciled(map[], map[], rows, 0, row), 0, Sell)) == ladder
  {
    Untouched(rows, row + 1);
    assert TakenOn(map[], 0, Sell) == map[];
    NetOfNothing(ladder, map[]);
  }

  lemma {:induction false} Untouched(rows: seq<Row>, n: nat)
    requires n <= |rows|
    ensures Replayed(map[], rows, 0, 0, n) == map[]
  {
    if n > 0 { Untouched(rows, n - 1); }
  }
}
