/** Every tape the builder produces is one the simulator's proofs apply to. */
module TapeLadders {
  import opened FixedPoint
  import opened Market
  import opened Ladders
  import opened Books
  import opened Reconstruction
  import opened Tapes
  import opened Sending

  ghost predicate ViewsSound(b: Build)
  {
    forall t <- b.views :: b.views[t].book.Some? ==> Sound(b.views[t].book.value)
  }

  ghost predicate LaddersUsable(r: Row)
  {
    BestFirst(Buy, r.asks) && Positive(r.asks) && BestFirst(Sell, r.bids) && Positive(r.bids)
  }

  ghost predicate RowsUsable(rows: seq<Row>) { forall r <- rows :: LaddersUsable(r) }

  ghost predicate RowsInOrder(rows: seq<Row>)
  {
    forall i, j :: 0 <= i <= j < |rows| ==> rows[i].time <= rows[j].time
  }

  lemma SoundRow(e: Event, b: Book)
    requires Sound(b)
    ensures LaddersUsable(RowOf(e, b))
  {
  }

  lemma StepUsable(b: Build, e: Event)
    requires ViewsSound(b) && RowsUsable(b.rows)
    ensures ViewsSound(Step(b, e)) && RowsUsable(Step(b, e).rows)
  {
    hide LaddersUsable, Sound, Fed, RowOf;
    FedSound(ViewIn(b, e.token), e.feed);
    var (view, verdict) := Fed(ViewIn(b, e.token), e.feed);
    if view.book.Some? {
      SoundInvalid(view);
      SoundRow(e, view.book.value);
    }
  }

  lemma SoundInvalid(v: View)
    requires v.book.Some? && Sound(v.book.value)
    ensures Sound(Invalidated(v).book.value)
  {
  }

  lemma RowsAppend(rows: seq<Row>, r: Row)
    requires RowsInOrder(rows) && forall x <- rows :: x.time <= r.time
    ensures RowsInOrder(rows + [r])
  {
  }

  /** The rows of a time-ordered feed are time-ordered, and each shows positive best-first ladders. */
  lemma {:induction false} BuiltUsable(events: seq<Event>)
    requires TimeOrdered(events)
    ensures ViewsSound(Built(events)) && RowsUsable(Built(events).rows)
    ensures RowsInOrder(Built(events).rows)
    ensures forall r <- Built(events).rows :: events != [] && r.time <= events[|events| - 1].time
  {
    hide ViewsSound, RowsUsable, RowsInOrder, Fed, RowOf;
    if events == [] {
      NothingBuilt();
    } else {
      var init, e := events[..|events| - 1], events[|events| - 1];
      BuiltUsable(init);
      StepUsable(Built(init), e);
      StepEffect(Built(init), e, e.token);
      if Built(events).rows != Built(init).rows {
        var r: Row :| r.time == e.time && Built(events).rows == Built(init).rows + [r];
        forall x | x in Built(init).rows ensures x.time <= r.time {
          assert init[|init| - 1] == events[|init| - 1];
        }
        RowsAppend(Built(init).rows, r);
      }
    }
  }

  lemma NothingBuilt()
    ensures ViewsSound(Built([])) && Built([]).rows == [] && RowsUsable([]) && RowsInOrder([])
  {
  }

  /** A built tape with its trades in order meets every requirement the simulator's results ask for. */
  lemma BuiltWellFormed(events: seq<Event>, trades: seq<Trade>, start: int, end: int, minimum: nat, tick: int)
    requires TimeOrdered(events)
    requires forall i, j :: 0 <= i <= j < |trades| ==> trades[i].time <= trades[j].time
    ensures WellFormed(EpisodeTape(Built(events).rows, Spans(Built(events)), trades, start, end, minimum, tick))
  {
    BuiltUsable(events);
  }
}
