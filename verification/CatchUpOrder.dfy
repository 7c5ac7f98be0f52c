/**
 * The order in which the paged catch-up applies events. The client sorts each page by position, while
 * the log is ordered by block alone; where a page ends inside a block, events of that block can be
 * applied in another order than by one sorted pass. This module says exactly when.
 *
 * Models `syncRest` of packages/agent-sdk/src/blockchain/IndexerWebSocketService.ts with
 * `sortEventsByPosition` of indexerSync.ts.
 */
module CatchUpOrder {
  import opened Options
  import opened IndexerSync
  import opened VeranaHelpers
  import opened RestCatchUp

  /** Repeats of an event have one position, as a transaction has one index in its block. */
  ghost predicate Coherent(es: seq<Event>) {
    forall e, f :: e in es && f in es && SameEvent(e, f) ==> SamePosition(e, f)
  }

  /** A page of the catch-up ends before log position `t`. */
  predicate CutAt(log: seq<Event>, cursor: int, limit: nat, t: nat)
    requires limit > 0
    decreases MaxBlock(log, cursor) - cursor
  {
    var next := NextCursor(log, cursor, limit);
    PageProgress(log, cursor, limit);
    t == EndIndex(log, cursor, limit) || (!next.done && CutAt(log, next.cursor, limit, t))
  }

  predicate NewAt(log: seq<Event>, st: SyncState, i: nat)
    requires i < |log|
  {
    IsProcessable(log[i]) && !Covered(st, log[i])
  }

  /** The log holds the event at `j` for the first time. */
  predicate FirstTime(log: seq<Event>, j: nat)
    requires j < |log|
  {
    forall k :: 0 <= k < j && IsProcessable(log[k]) ==> !SameEvent(log[k], log[j])
  }

  /** A new event before the cut does not come behind, in position order, one that first occurs after it. */
  ghost predicate CutKeepsOrder(log: seq<Event>, st: SyncState, t: nat) {
    forall i, j :: 0 <= i < t <= j < |log| && NewAt(log, st, i) && NewAt(log, st, j) && FirstTime(log, j) ==>
      PositionLeq(log[i], log[j])
  }

  ghost predicate CutsKeepOrder(log: seq<Event>, cursor: int, limit: nat, st: SyncState)
    requires limit > 0
  {
    forall t :: CutAt(log, cursor, limit, t) ==> CutKeepsOrder(log, st, t)
  }

  // ---------------------------------------------------------------- position order of the applied events

  lemma {:induction false} NewEventsSorted(st: SyncState, es: seq<Event>)
    requires PositionSorted(es)
    ensures PositionSorted(NewEvents(st, es))
  {
    if es != [] {
      var n := |es| - 1;
      NewEventsSorted(st, es[..n]);
      NewEventsMembers(st, es[..n]);
      var before := NewEvents(st, es[..n]);
      forall i | 0 <= i < |before| ensures PositionLeq(before[i], es[n]) {
        assert before[i] in es[..n];
      }
    }
  }

  lemma {:induction false} FirstOf(log: seq<Event>, i: nat) returns (j: nat)
    requires i < |log| && IsProcessable(log[i])
    ensures j <= i && IsProcessable(log[j]) && SameEvent(log[j], log[i]) && FirstTime(log, j)
  {
    if k :| 0 <= k < i && IsProcessable(log[k]) && SameEvent(log[k], log[i]) {
      j := FirstOf(log, k);
    } else {
      j := i;
    }
  }

  /** The next page reaches at least as far as this one. */
  lemma NextPageEndsLater(log: seq<Event>, cursor: int, limit: nat)
    requires limit > 0 && BlockSorted(log) && NoBlockExceedsPage(log, cursor, limit)
    ensures EndIndex(log, cursor, limit) <= EndIndex(log, NextCursor(log, cursor, limit).cursor, limit)
  {
    NextPageOverlaps(log, cursor, limit);
    PageSlice(log, cursor, limit);
    var next := NextCursor(log, cursor, limit);
    PageSlice(log, next.cursor, limit);
    var s, s' := StartIndex(log, cursor), StartIndex(log, next.cursor);
    if s' < |log| {
      StartIndexBound(log, cursor, s');
    }
  }

  lemma {:induction false} CutsComeLater(log: seq<Event>, cursor: int, limit: nat, t: nat)
    requires limit > 0 && BlockSorted(log) && NoBlockExceedsPage(log, cursor, limit) && CutAt(log, cursor, limit, t)
    ensures EndIndex(log, cursor, limit) <= t <= |log|
    decreases MaxBlock(log, cursor) - cursor
  {
    var next := NextCursor(log, cursor, limit);
    PageProgress(log, cursor, limit);
    PageSlice(log, cursor, limit);
    if t != EndIndex(log, cursor, limit) {
      NextPageOverlaps(log, cursor, limit);
      NextPageEndsLater(log, cursor, limit);
      CutsComeLater(log, next.cursor, limit, t);
    }
  }

  /** The event stands in the log before position `t`. */
  ghost predicate SeenBefore(log: seq<Event>, t: nat, e: Event) {
    exists k: nat :: k < t && k < |log| && IsProcessable(log[k]) && log[k] == e
  }

  /** From log position `t` on, `mid` covers what `st` covers and what `events` repeat. */
  ghost predicate CoversFrom(log: seq<Event>, t: nat, st: SyncState, mid: SyncState, events: seq<Event>) {
    forall k: nat :: t <= k < |log| ==> (Covered(mid, log[k]) <==> Covered(st, log[k]) || Repeats(events, log[k]))
  }

  ghost predicate CoversBefore(log: seq<Event>, st: SyncState, t: nat) {
    forall i: nat :: i < t && i < |log| && IsProcessable(log[i]) ==> Covered(st, log[i])
  }

  ghost predicate Uncovers(st: SyncState, mid: SyncState) {
    exists e :: Covered(st, e) && !Covered(mid, e)
  }

  /** What holds between two pages: `mid` is the checkpoint after the page that ends before `t`. */
  ghost predicate PageDone(log: seq<Event>, t: nat, events: seq<Event>, st: SyncState, mid: SyncState) {
    && Valid(mid) && !Uncovers(st, mid)
    && CoversBefore(log, mid, t)
    && (forall e :: e in events ==> SeenBefore(log, t, e))
    && CoversFrom(log, t, st, mid, events)
  }

  ghost predicate ReadBefore(log: seq<Event>, cursor: int, limit: nat, st: SyncState, read: nat) {
    StartIndex(log, cursor) <= read <= EndIndex(log, cursor, limit) && CoversBefore(log, st, read)
  }

  /** A processable event between the ends of a page is one it hands over. */
  lemma PageHandsOver(log: seq<Event>, cursor: int, limit: nat, i: nat)
    requires limit > 0 && BlockSorted(log)
    requires StartIndex(log, cursor) <= i < EndIndex(log, cursor, limit) <= |log| && IsProcessable(log[i])
    ensures log[i] in PageEvents(log, cursor, limit)
  {
    PageSlice(log, cursor, limit);
    var page := Page(log, cursor, limit);
    assert page[i - StartIndex(log, cursor)] == log[i];
    ProcessableMembers(page);
    SortMembers(Processable(page));
  }

  lemma PageComesFromLog(log: seq<Event>, cursor: int, limit: nat, e: Event)
    requires limit > 0 && BlockSorted(log) && e in PageEvents(log, cursor, limit)
    ensures SeenBefore(log, EndIndex(log, cursor, limit), e)
  {
    PageSlice(log, cursor, limit);
    var page := Page(log, cursor, limit);
    ProcessableMembers(page);
    SortMembers(Processable(page));
    var k :| 0 <= k < |page| && page[k] == e;
    assert log[StartIndex(log, cursor) + k] == e;
  }

  lemma PageHoldsStretch(log: seq<Event>, cursor: int, limit: nat)
    requires limit > 0 && BlockSorted(log)
    ensures forall i :: StartIndex(log, cursor) <= i < EndIndex(log, cursor, limit) <= |log| && IsProcessable(log[i]) ==>
              log[i] in PageEvents(log, cursor, limit)
    ensures forall e :: e in PageEvents(log, cursor, limit) ==> SeenBefore(log, EndIndex(log, cursor, limit), e)
    ensures BlockSorted(PageEvents(log, cursor, limit))
  {
    SortMembers(Processable(Page(log, cursor, limit)));
    forall i | StartIndex(log, cursor) <= i < EndIndex(log, cursor, limit) <= |log| && IsProcessable(log[i])
      ensures log[i] in PageEvents(log, cursor, limit)
    {
      PageHandsOver(log, cursor, limit, i);
    }
    forall e | e in PageEvents(log, cursor, limit) ensures SeenBefore(log, EndIndex(log, cursor, limit), e) {
      PageComesFromLog(log, cursor, limit, e);
    }
  }

  lemma PassCoversFrom(log: seq<Event>, t: nat, st: SyncState, events: seq<Event>)
    requires BlockSorted(log) && Valid(st) && BlockSorted(events) && forall e :: e in events ==> SeenBefore(log, t, e)
    ensures CoversFrom(log, t, st, ApplyAll(st, events).0, events)
  {
    forall k: nat | t <= k < |log|
      ensures Covered(ApplyAll(st, events).0, log[k]) <==> Covered(st, log[k]) || Repeats(events, log[k])
    {
      forall e | e in events ensures e.block <= log[k].block {
        assert SeenBefore(log, t, e);
      }
      PassCoverage(st, events, log[k]);
      CoveredOrRepeats(st, events, log[k]);
    }
  }

  lemma PageIsDone(log: seq<Event>, cursor: int, limit: nat, st: SyncState, read: nat)
    requires limit > 0 && BlockSorted(log) && Valid(st) && ReadBefore(log, cursor, limit, st, read)
    ensures PageDone(log, EndIndex(log, cursor, limit), PageEvents(log, cursor, limit), st,
                     ApplyAll(st, PageEvents(log, cursor, limit)).0)
  {
    var t, events := EndIndex(log, cursor, limit), PageEvents(log, cursor, limit);
    var mid := ApplyAll(st, events).0;
    PageHoldsStretch(log, cursor, limit);
    ApplyAllCovers(st, events);
    PassCoversFrom(log, t, st, events);
    forall i: nat | i < t && i < |log| && IsProcessable(log[i]) ensures Covered(mid, log[i]) {
      if i >= read {
        assert log[i] in events;
      }
    }
  }

  /** An event that first occurs behind the page is as new after the page as before. */
  lemma StillNew(log: seq<Event>, t: nat, events: seq<Event>, st: SyncState, mid: SyncState, j: nat)
    requires PageDone(log, t, events, st, mid) && t <= j < |log|
    requires NewAt(log, st, j) && FirstTime(log, j)
    ensures NewAt(log, mid, j)
  {
    forall n | 0 <= n < |events| ensures !SameEvent(events[n], log[j]) {
      assert events[n] in events && SeenBefore(log, t, events[n]);
    }
  }

  lemma NewBefore(log: seq<Event>, st: SyncState, mid: SyncState, i: nat)
    requires !Uncovers(st, mid) && i < |log| && NewAt(log, mid, i)
    ensures NewAt(log, st, i)
  {
  }

  /** The new events of a page, and those of the pages after it. */
  ghost predicate Crossing(x: seq<Event>, y: seq<Event>) {
    forall e, f :: e in x && f in y ==> PositionLeq(e, f)
  }

  /** `rest` hands over the events from log position `t` on. */
  ghost predicate RestFrom(log: seq<Event>, t: nat, rest: seq<Event>) {
    && (forall e :: e in rest ==> e in log && IsProcessable(e))
    && (forall j: nat :: t <= j < |log| && IsProcessable(log[j]) ==> log[j] in rest)
  }

  lemma NextPagesHoldRest(log: seq<Event>, cursor: int, limit: nat)
    requires limit > 0 && BlockSorted(log) && NoBlockExceedsPage(log, cursor, limit)
    requires !NextCursor(log, cursor, limit).done
    ensures RestFrom(log, EndIndex(log, cursor, limit), CatchUpEvents(log, NextCursor(log, cursor, limit).cursor, limit))
  {
    var next := NextCursor(log, cursor, limit);
    NextPageOverlaps(log, cursor, limit);
    PageSlice(log, next.cursor, limit);
    CatchUpMembers(log, next.cursor, limit);
  }

  /** A new event of the list has its like, at the same position, among the new events. */
  lemma NewAtIsNew(log: seq<Event>, st: SyncState, es: seq<Event>, i: nat) returns (e: Event)
    requires Coherent(log) && i < |log| && log[i] in es && NewAt(log, st, i) && forall e :: e in es ==> e in log
    ensures e in NewEvents(st, es) && SamePosition(e, log[i])
  {
    NewEventsMembers(st, es);
    var x := NewEvents(st, es);
    var a :| 0 <= a < |x| && SameEvent(x[a], log[i]);
    e := x[a];
    assert e in x && e in log && log[i] in log;
  }

  lemma CrossingMeansCut(log: seq<Event>, t: nat, read: nat, events: seq<Event>, rest: seq<Event>, st: SyncState, mid: SyncState)
    requires Coherent(log) && CoversBefore(log, st, read) && PageDone(log, t, events, st, mid) && RestFrom(log, t, rest)
    requires forall i: nat :: read <= i < t <= |log| && IsProcessable(log[i]) ==> log[i] in events
    requires Crossing(NewEvents(st, events), NewEvents(mid, rest))
    ensures CutKeepsOrder(log, st, t)
  {
    assert forall e :: e in events ==> SeenBefore(log, t, e) && e in log;
    forall i: nat, j: nat | i < t <= j < |log| && NewAt(log, st, i) && NewAt(log, st, j) && FirstTime(log, j)
      ensures PositionLeq(log[i], log[j])
    {
      StillNew(log, t, events, st, mid, j);
      var e := NewAtIsNew(log, st, events, i);
      var f := NewAtIsNew(log, mid, rest, j);
      assert PositionLeq(e, f);
    }
  }

  lemma CutMeansCrossing(log: seq<Event>, t: nat, events: seq<Event>, rest: seq<Event>, st: SyncState, mid: SyncState)
    requires Coherent(log) && PageDone(log, t, events, st, mid) && RestFrom(log, t, rest)
    requires CutKeepsOrder(log, st, t)
    ensures Crossing(NewEvents(st, events), NewEvents(mid, rest))
  {
    NewEventsMembers(st, events);
    NewEventsMembers(mid, rest);
    forall e, f | e in NewEvents(st, events) && f in NewEvents(mid, rest) ensures PositionLeq(e, f) {
      assert SeenBefore(log, t, e);
      var i: nat :| i < t && i < |log| && IsProcessable(log[i]) && log[i] == e;
      var j := FirstBehind(log, t, mid, f);
      NewBefore(log, st, mid, j);
      assert PositionLeq(log[i], log[j]);
    }
  }

  /** An event that is new after the page first occurs behind it. */
  lemma FirstBehind(log: seq<Event>, t: nat, mid: SyncState, f: Event) returns (j: nat)
    requires Coherent(log) && CoversBefore(log, mid, t) && f in log && IsProcessable(f) && !Covered(mid, f)
    ensures t <= j < |log| && NewAt(log, mid, j) && FirstTime(log, j) && SamePosition(log[j], f)
  {
    var k :| 0 <= k < |log| && log[k] == f;
    j := FirstOf(log, k);
    assert Covered(mid, log[j]) <==> Covered(mid, f);
    assert log[j] in log && log[k] in log;
  }

  /** A later cut sees the same disorder from the checkpoint before the page as from the one after it. */
  lemma LaterCut(log: seq<Event>, t: nat, events: seq<Event>, st: SyncState, mid: SyncState, t': nat)
    requires Coherent(log) && PageDone(log, t, events, st, mid) && t <= t' && CutKeepsOrder(log, st, t)
    ensures CutKeepsOrder(log, mid, t') <==> CutKeepsOrder(log, st, t')
  {
    if CutKeepsOrder(log, mid, t') {
      forall i: nat, j: nat | i < t' <= j < |log| && NewAt(log, st, i) && NewAt(log, st, j) && FirstTime(log, j)
        ensures PositionLeq(log[i], log[j])
      {
        StillNew(log, t, events, st, mid, j);
        if i >= t && Covered(mid, log[i]) {
          var n :| 0 <= n < |events| && SameEvent(events[n], log[i]);
          assert events[n] in events && SeenBefore(log, t, events[n]);
          var k: nat :| k < t && k < |log| && IsProcessable(log[k]) && log[k] == events[n];
          assert NewAt(log, st, k) && log[k] in log && log[i] in log;
          assert PositionLeq(log[k], log[j]);
        }
      }
    }
    if CutKeepsOrder(log, st, t') {
      forall i: nat, j: nat | i < t' <= j < |log| && NewAt(log, mid, i) && NewAt(log, mid, j) && FirstTime(log, j)
        ensures PositionLeq(log[i], log[j])
      {
        NewBefore(log, st, mid, i);
        NewBefore(log, st, mid, j);
      }
    }
  }

  /** The new events of two stretches in a row. */
  lemma NewEventsConcat(st: SyncState, a: seq<Event>, b: seq<Event>)
    requires Valid(st) && BlockSorted(a + b)
    ensures NewEvents(st, a + b) == NewEvents(st, a) + NewEvents(ApplyAll(st, a).0, b)
  {
    var mid := ApplyAll(st, a).0;
    assert BlockSorted(a) by {
      forall i, j | 0 <= i < j < |a| ensures a[i].block <= a[j].block {
        assert (a + b)[i] == a[i] && (a + b)[j] == a[j];
      }
    }
    assert BlockSorted(b) by {
      forall i, j | 0 <= i < j < |b| ensures b[i].block <= b[j].block {
        assert (a + b)[|a| + i] == b[i] && (a + b)[|a| + j] == b[j];
      }
    }
    ApplyAllCovers(st, a);
    ApplyAllConcat(st, a, b);
    PassAppliesNewEvents(st, a + b);
    PassAppliesNewEvents(st, a);
    PassAppliesNewEvents(mid, b);
  }

  lemma SortedConcat(x: seq<Event>, y: seq<Event>)
    ensures PositionSorted(x + y) <==> PositionSorted(x) && PositionSorted(y) && Crossing(x, y)
  {
    var z := x + y;
    if PositionSorted(z) {
      forall i, j | 0 <= i < j < |y| ensures PositionLeq(y[i], y[j]) {
        assert z[|x| + i] == y[i] && z[|x| + j] == y[j];
      }
      forall e, f | e in x && f in y ensures PositionLeq(e, f) {
        var i :| 0 <= i < |x| && x[i] == e;
        var j :| 0 <= j < |y| && y[j] == f;
        assert z[i] == e && z[|x| + j] == f;
      }
      assert forall i :: 0 <= i < |x| ==> z[i] == x[i];
    }
    if PositionSorted(x) && PositionSorted(y) && Crossing(x, y) {
      forall i, j | 0 <= i < j < |z| ensures PositionLeq(z[i], z[j]) {
        if i < |x| <= j {
          assert z[i] in x && z[j] in y;
        }
      }
    }
  }

  lemma CutsFromMid(log: seq<Event>, cursor: int, limit: nat, st: SyncState, mid: SyncState)
    requires limit > 0 && BlockSorted(log) && NoBlockExceedsPage(log, cursor, limit) && Coherent(log)
    requires PageDone(log, EndIndex(log, cursor, limit), PageEvents(log, cursor, limit), st, mid)
    requires !NextCursor(log, cursor, limit).done
    ensures CutsKeepOrder(log, cursor, limit, st) <==>
            && CutKeepsOrder(log, st, EndIndex(log, cursor, limit))
            && CutsKeepOrder(log, NextCursor(log, cursor, limit).cursor, limit, mid)
  {
    var next, t := NextCursor(log, cursor, limit), EndIndex(log, cursor, limit);
    PageProgress(log, cursor, limit);
    NextPageOverlaps(log, cursor, limit);
    NextPageEndsLater(log, cursor, limit);
    assert CutAt(log, cursor, limit, t);
    forall t' | CutAt(log, next.cursor, limit, t') && CutKeepsOrder(log, st, t)
      ensures CutAt(log, cursor, limit, t') && (CutKeepsOrder(log, mid, t') <==> CutKeepsOrder(log, st, t'))
    {
      CutsComeLater(log, next.cursor, limit, t');
      LaterCut(log, t, PageEvents(log, cursor, limit), st, mid, t');
    }
  }

  /** One page and the pages after it. */
  lemma PageThenRest(log: seq<Event>, cursor: int, limit: nat, st: SyncState, read: nat)
    requires limit > 0 && BlockSorted(log) && NoBlockExceedsPage(log, cursor, limit) && Coherent(log) && Valid(st)
    requires ReadBefore(log, cursor, limit, st, read) && !NextCursor(log, cursor, limit).done
    ensures var mid := ApplyAll(st, PageEvents(log, cursor, limit)).0;
            PositionSorted(NewEvents(st, CatchUpEvents(log, cursor, limit))) <==>
            && CutKeepsOrder(log, st, EndIndex(log, cursor, limit))
            && PositionSorted(NewEvents(mid, CatchUpEvents(log, NextCursor(log, cursor, limit).cursor, limit)))
  {
    var next, t := NextCursor(log, cursor, limit), EndIndex(log, cursor, limit);
    var events, rest := PageEvents(log, cursor, limit), CatchUpEvents(log, next.cursor, limit);
    var mid := ApplyAll(st, events).0;
    PageProgress(log, cursor, limit);
    PageSlice(log, cursor, limit);
    PageIsDone(log, cursor, limit, st, read);
    PageHoldsStretch(log, cursor, limit);
    NextPagesHoldRest(log, cursor, limit);
    SortOrders(Processable(Page(log, cursor, limit)));
    NewEventsSorted(st, events);
    assert CatchUpEvents(log, cursor, limit) == events + rest;
    CatchUpClimbs(log, cursor, limit);
    NewEventsConcat(st, events, rest);
    SortedConcat(NewEvents(st, events), NewEvents(mid, rest));
    if CutKeepsOrder(log, st, t) {
      CutMeansCrossing(log, t, events, rest, st, mid);
    }
    if Crossing(NewEvents(st, events), NewEvents(mid, rest)) {
      CrossingMeansCut(log, t, read, events, rest, st, mid);
    }
  }

  /** From any cursor on: the new events of the pages are in position order exactly when the cuts keep it. */
  lemma {:induction false} RestInOrderIff(log: seq<Event>, cursor: int, limit: nat, st: SyncState, read: nat)
    requires limit > 0 && BlockSorted(log) && NoBlockExceedsPage(log, cursor, limit) && Coherent(log) && Valid(st)
    requires ReadBefore(log, cursor, limit, st, read)
    ensures PositionSorted(NewEvents(st, CatchUpEvents(log, cursor, limit))) <==> CutsKeepOrder(log, cursor, limit, st)
    decreases MaxBlock(log, cursor) - cursor
  {
    var next, t := NextCursor(log, cursor, limit), EndIndex(log, cursor, limit);
    var events := PageEvents(log, cursor, limit);
    PageProgress(log, cursor, limit);
    NextPageOverlaps(log, cursor, limit);
    if next.done {
      assert CatchUpEvents(log, cursor, limit) == events;
      SortOrders(Processable(Page(log, cursor, limit)));
      NewEventsSorted(st, events);
      assert t == |log|;
    } else {
      var mid := ApplyAll(st, events).0;
      PageIsDone(log, cursor, limit, st, read);
      NextPageEndsLater(log, cursor, limit);
      RestInOrderIff(log, next.cursor, limit, mid, t);
      PageThenRest(log, cursor, limit, st, read);
      CutsFromMid(log, cursor, limit, st, mid);
    }
  }

  // ---------------------------------------------------------------- one order per position

  lemma {:induction false} AtPositionConcat(a: seq<Event>, b: seq<Event>, p: Event)
    ensures AtPosition(a + b, p) == AtPosition(a, p) + AtPosition(b, p)
    decreases |a|
  {
    if a == [] {
      assert a + b == b;
    } else {
      AtPositionConcat(a[1..], b, p);
      assert (a + b)[1..] == a[1..] + b;
    }
  }

  lemma {:induction false} AtPositionMembers(es: seq<Event>, p: Event)
    ensures forall e :: e in AtPosition(es, p) <==> e in es && SamePosition(e, p)
  {
    if es != [] {
      AtPositionMembers(es[1..], p);
      assert es == [es[0]] + es[1..];
    }
  }

  lemma RepeatsByMembers(es: seq<Event>, fs: seq<Event>, e: Event)
    requires forall f :: SameEvent(f, e) ==> (f in es <==> f in fs)
    ensures Repeats(es, e) <==> Repeats(fs, e)
  {
    if Repeats(es, e) {
      var j :| 0 <= j < |es| && SameEvent(es[j], e);
      assert es[j] in es && es[j] in fs;
    }
    if Repeats(fs, e) {
      var j :| 0 <= j < |fs| && SameEvent(fs[j], e);
      assert fs[j] in fs && fs[j] in es;
    }
  }

  /** Of the new events, those at a position are the new ones among the events at that position. */
  lemma {:induction false} NewEventsAtPosition(st: SyncState, es: seq<Event>, p: Event)
    requires Coherent(es)
    ensures AtPosition(NewEvents(st, es), p) == NewEvents(st, AtPosition(es, p))
  {
    if es != [] {
      var n := |es| - 1;
      var e, before := es[n], es[..n];
      assert es == before + [e];
      assert forall f :: f in before ==> f in es;
      NewEventsAtPosition(st, before, p);
      AtPositionConcat(before, [e], p);
      var d := if !Covered(st, e) && !Repeats(before, e) then [e] else [];
      NewEventsSnoc(st, before, e);
      AtPositionConcat(NewEvents(st, before), d, p);
      assert AtPosition([e], p) == if SamePosition(e, p) then [e] else [];
      assert AtPosition(d, p) == if SamePosition(e, p) then d else [];
      if SamePosition(e, p) {
        NewEventsSnoc(st, AtPosition(before, p), e);
        AtPositionMembers(before, p);
        RepeatsByMembers(before, AtPosition(before, p), e);
      } else {
        assert AtPosition(es, p) == AtPosition(before, p);
      }
    }
  }

  lemma HeadAtPosition(es: seq<Event>)
    requires es != []
    ensures AtPosition(es, es[0]) != [] && AtPosition(es, es[0])[0] == es[0]
  {
  }

  /** The head of a list in position order is the head at any position it shares with the other head. */
  lemma SameHead(a: seq<Event>, b: seq<Event>)
    requires a != [] && b != [] && PositionSorted(a) && PositionSorted(b)
    requires AtPosition(a, a[0]) == AtPosition(b, a[0]) && AtPosition(a, b[0]) == AtPosition(b, b[0])
    ensures a[0] == b[0]
  {
    HeadAtPosition(a);
    HeadAtPosition(b);
    AtPositionMembers(a, b[0]);
    AtPositionMembers(b, a[0]);
    assert a[0] in AtPosition(b, a[0]) && b[0] in AtPosition(a, b[0]);
    assert PositionLeq(a[0], b[0]) && PositionLeq(b[0], a[0]);
  }

  /** Position order, and the order of the events at each position, leave one list. */
  lemma {:induction false} OneOrder(a: seq<Event>, b: seq<Event>)
    requires PositionSorted(a) && PositionSorted(b) && forall p :: AtPosition(a, p) == AtPosition(b, p)
    ensures a == b
  {
    if a != [] {
      HeadAtPosition(a);
    }
    if b != [] {
      HeadAtPosition(b);
      SameHead(a, b);
      forall p ensures AtPosition(a[1..], p) == AtPosition(b[1..], p) {
        AtPositionTail(a, p);
        AtPositionTail(b, p);
        assert AtPosition(a, p) == AtPosition(b, p);
      }
      OneOrder(a[1..], b[1..]);
      assert a == [a[0]] + a[1..] && b == [b[0]] + b[1..];
    }
  }

  lemma AtPositionTail(es: seq<Event>, p: Event)
    requires es != []
    ensures AtPosition(es[1..], p) == if SamePosition(es[0], p) then AtPosition(es, p)[1..] else AtPosition(es, p)
  {
  }

  lemma {:induction false} PagesAtPosition(log: seq<Event>, cursor: int, limit: nat, p: Event)
    requires limit > 0
    ensures AtPosition(CatchUpEvents(log, cursor, limit), p) == AtPosition(PagesInLogOrder(log, cursor, limit), p)
    decreases MaxBlock(log, cursor) - cursor
  {
    var next := NextCursor(log, cursor, limit);
    var plain := Processable(Page(log, cursor, limit));
    PageProgress(log, cursor, limit);
    SortStable(plain, p);
    if !next.done {
      PagesAtPosition(log, next.cursor, limit, p);
      AtPositionConcat(PageEvents(log, cursor, limit), CatchUpEvents(log, next.cursor, limit), p);
      AtPositionConcat(plain, PagesInLogOrder(log, next.cursor, limit), p);
    } else {
      assert CatchUpEvents(log, cursor, limit) == PageEvents(log, cursor, limit);
      assert PagesInLogOrder(log, cursor, limit) == plain;
    }
  }

  lemma {:induction false} ProcessableBlockSorted(es: seq<Event>)
    requires BlockSorted(es)
    ensures BlockSorted(Processable(es))
  {
    if es != [] {
      ProcessableBlockSorted(es[1..]);
      ProcessableMembers(es[1..]);
      var rest := Processable(es[1..]);
      forall i | 0 <= i < |rest| ensures es[0].block <= rest[i].block {
        assert rest[i] in es[1..];
      }
    }
  }

  lemma {:induction false} PagesInLogOrderClimb(log: seq<Event>, cursor: int, limit: nat)
    requires limit > 0 && BlockSorted(log)
    ensures BlockSorted(PagesInLogOrder(log, cursor, limit))
    decreases MaxBlock(log, cursor) - cursor
  {
    var next := NextCursor(log, cursor, limit);
    var plain := Processable(Page(log, cursor, limit));
    PageProgress(log, cursor, limit);
    PageSlice(log, cursor, limit);
    ProcessableBlockSorted(Page(log, cursor, limit));
    PageMembers(log, cursor, limit);
    if !next.done {
      PagesInLogOrderClimb(log, next.cursor, limit);
      CatchUpClimbs(log, next.cursor, limit);
      var rest := PagesInLogOrder(log, next.cursor, limit);
      assert PagesInLogOrder(log, cursor, limit) == plain + rest;
      forall i, j | 0 <= i < |plain| && 0 <= j < |rest| ensures plain[i].block <= rest[j].block {
        assert plain[i] in plain && rest[j] in rest;
      }
    } else {
      assert PagesInLogOrder(log, cursor, limit) == plain;
    }
  }

  /** The pages in log order apply what the whole log in log order applies. */
  lemma PagesApplyTheLog(log: seq<Event>, limit: nat, st: SyncState)
    requires limit > 0 && BlockSorted(log) && Valid(st) && NoBlockExceedsPage(log, st.lastBlockHeight, limit)
    ensures NewEvents(st, PagesInLogOrder(log, st.lastBlockHeight, limit)) ==
            NewEvents(st, Processable(After(log, st.lastBlockHeight)))
  {
    var s := StartIndex(log, st.lastBlockHeight);
    var raw, plain := PagesInLogOrder(log, st.lastBlockHeight, limit), Processable(After(log, st.lastBlockHeight));
    PageSlice(log, st.lastBlockHeight, limit);
    AfterIsSuffixFrom(log, st.lastBlockHeight, 0);
    assert log[0..] == log;
    PagesRefineRest(log, st.lastBlockHeight, limit, st, s);
    PagesInLogOrderClimb(log, st.lastBlockHeight, limit);
    ProcessableBlockSorted(log[s..]);
    PassAppliesNewEvents(st, raw);
    PassAppliesNewEvents(st, plain);
  }

  /** At every position the pages apply what the single pass applies, in the same order. */
  lemma SameAtPosition(log: seq<Event>, limit: nat, st: SyncState, p: Event)
    requires limit > 0 && BlockSorted(log) && Coherent(log) && Valid(st)
    requires NoBlockExceedsPage(log, st.lastBlockHeight, limit)
    ensures AtPosition(NewEvents(st, CatchUpEvents(log, st.lastBlockHeight, limit)), p) ==
            AtPosition(NewEvents(st, SinglePass(log, st.lastBlockHeight)), p)
  {
    var pages, raw := CatchUpEvents(log, st.lastBlockHeight, limit), PagesInLogOrder(log, st.lastBlockHeight, limit);
    var plain, single := Processable(After(log, st.lastBlockHeight)), SinglePass(log, st.lastBlockHeight);
    CatchUpClimbs(log, st.lastBlockHeight, limit);
    SinglePassMembers(log, st.lastBlockHeight);
    SortMembers(plain);
    NewEventsAtPosition(st, pages, p);
    NewEventsAtPosition(st, raw, p);
    NewEventsAtPosition(st, plain, p);
    NewEventsAtPosition(st, single, p);
    PagesAtPosition(log, st.lastBlockHeight, limit, p);
    PagesApplyTheLog(log, limit, st);
    SortStable(plain, p);
  }

  // ---------------------------------------------------------------- the claims

  /** The applied events alone lead to the same checkpoint. */
  lemma {:induction false} AppliedSuffice(st: SyncState, es: seq<Event>)
    ensures ApplyAll(st, ApplyAll(st, es).1) == ApplyAll(st, es)
    decreases |es|
  {
    if es != [] {
      if Covered(st, es[0]) {
        AppliedSuffice(st, es[1..]);
      } else {
        var next := CommitEvent(st, es[0]);
        AppliedSuffice(next, es[1..]);
        assert ([es[0]] + ApplyAll(next, es[1..]).1)[1..] == ApplyAll(next, es[1..]).1;
      }
    }
  }

  /**
   * Main result. The catch-up applies the same events in the same order as one sorted pass, and leaves
   * the same checkpoint, exactly when no page ends between two new events of a block that the sort would
   * swap.
   */
  lemma CatchUpKeepsOrderIff(log: seq<Event>, limit: nat, st: SyncState)
    requires limit > 0 && BlockSorted(log) && Coherent(log) && Valid(st)
    requires NoBlockExceedsPage(log, st.lastBlockHeight, limit)
    ensures ApplyAll(st, CatchUpEvents(log, st.lastBlockHeight, limit)) == ApplyAll(st, SinglePass(log, st.lastBlockHeight)) <==>
            CutsKeepOrder(log, st.lastBlockHeight, limit, st)
  {
    var pages, single := CatchUpEvents(log, st.lastBlockHeight, limit), SinglePass(log, st.lastBlockHeight);
    CatchUpClimbs(log, st.lastBlockHeight, limit);
    SinglePassMembers(log, st.lastBlockHeight);
    PassAppliesNewEvents(st, pages);
    PassAppliesNewEvents(st, single);
    PageSlice(log, st.lastBlockHeight, limit);
    RestInOrderIff(log, st.lastBlockHeight, limit, st, StartIndex(log, st.lastBlockHeight));
    SortOrders(Processable(After(log, st.lastBlockHeight)));
    NewEventsSorted(st, single);
    if PositionSorted(NewEvents(st, pages)) {
      forall p ensures AtPosition(NewEvents(st, pages), p) == AtPosition(NewEvents(st, single), p) {
        SameAtPosition(log, limit, st, p);
      }
      OneOrder(NewEvents(st, pages), NewEvents(st, single));
      AppliedSuffice(st, pages);
      AppliedSuffice(st, single);
    }
  }

  lemma {:induction false} ProcessableSorted(es: seq<Event>)
    requires PositionSorted(es)
    ensures PositionSorted(Processable(es))
  {
    if es != [] {
      ProcessableSorted(es[1..]);
      ProcessableMembers(es[1..]);
      var rest := Processable(es[1..]);
      forall i | 0 <= i < |rest| ensures PositionLeq(es[0], rest[i]) {
        assert rest[i] in es[1..];
        var k :| 0 <= k < |es[1..]| && es[1..][k] == rest[i];
        assert es[k + 1] == rest[i];
      }
    }
  }

  lemma {:induction false} SortedPages(log: seq<Event>, cursor: int, limit: nat)
    requires limit > 0 && PositionSorted(log)
    ensures CatchUpEvents(log, cursor, limit) == PagesInLogOrder(log, cursor, limit)
    decreases MaxBlock(log, cursor) - cursor
  {
    var page := Page(log, cursor, limit);
    var next := NextCursor(log, cursor, limit);
    PageProgress(log, cursor, limit);
    PositionSortedIsBlockSorted(log);
    PageSlice(log, cursor, limit);
    ProcessableSorted(page);
    SortOfSorted(Processable(page));
    if !next.done {
      SortedPages(log, next.cursor, limit);
    }
  }

  /** A log in position order is applied in that order, with or without repeats of an event. */
  lemma SortedLogKeepsOrder(log: seq<Event>, limit: nat, st: SyncState)
    requires limit > 0 && PositionSorted(log) && Valid(st) && NoBlockExceedsPage(log, st.lastBlockHeight, limit)
    ensures ApplyAll(st, CatchUpEvents(log, st.lastBlockHeight, limit)) == ApplyAll(st, SinglePass(log, st.lastBlockHeight))
  {
    var s := StartIndex(log, st.lastBlockHeight);
    PositionSortedIsBlockSorted(log);
    PageSlice(log, st.lastBlockHeight, limit);
    AfterIsSuffixFrom(log, st.lastBlockHeight, 0);
    assert log[0..] == log;
    SortedPages(log, st.lastBlockHeight, limit);
    PagesRefineRest(log, st.lastBlockHeight, limit, st, s);
    ProcessableSorted(log[s..]);
    SortOfSorted(Processable(log[s..]));
  }

  lemma AfterCons(e: Event, es: seq<Event>, cursor: int)
    ensures After([e] + es, cursor) == (if e.block > cursor then [e] else []) + After(es, cursor)
  {
    assert ([e] + es)[1..] == es;
  }

  lemma SortCons(e: Event, es: seq<Event>)
    ensures SortEventsByPosition([e] + es) == Insert(e, SortEventsByPosition(es))
  {
    assert ([e] + es)[1..] == es;
  }

  lemma MaxBlockCons(e: Event, es: seq<Event>, start: int)
    ensures MaxBlock([e] + es, start) == MaxBlock(es, if e.block > start then e.block else start)
  {
    assert ([e] + es)[1..] == es;
  }

  lemma ApplyCons(st: SyncState, e: Event, es: seq<Event>)
    ensures ApplyAll(st, [e] + es) ==
            if Covered(st, e) then ApplyAll(st, es)
            else (ApplyAll(CommitEvent(st, e), es).0, [e] + ApplyAll(CommitEvent(st, e), es).1)
  {
    assert ([e] + es)[1..] == es;
  }

  lemma PagesOfThree(a: Event, b: Event, c: Event)
    requires a.block == 1 && b.block == c.block == 2
    ensures After([a, b, c], 0) == [a, b, c]
    ensures Page([a, b, c], 0, 2) == [a, b] && NextCursor([a, b, c], 0, 2) == RestCursor(false, 1, false)
    ensures Page([a, b, c], 1, 2) == [b, c] && NextCursor([a, b, c], 1, 2) == RestCursor(false, 2, true)
    ensures Page([a, b, c], 2, 2) == []
  {
    assert [a, b, c] == [a] + [b, c] && [b, c] == [b] + [c] && [c] == [c] + [] && [a, b] == [a] + [b] && [b] == [b] + [];
    forall k: int ensures After([a, b, c], k) == if k < 1 then [a, b, c] else if k < 2 then [b, c] else [] {
      AfterCons(a, [b, c], k);
      AfterCons(b, [c], k);
      AfterCons(c, [], k);
    }
    MaxBlockCons(a, [b], 0);
    MaxBlockCons(b, [], 1);
    MaxBlockCons(b, [c], 1);
    MaxBlockCons(c, [], 2);
  }

  lemma SortsOfThree(a: Event, b: Event, c: Event)
    requires a.block == 1 && b.block == c.block == 2 && c.txIndex < b.txIndex
    ensures SortEventsByPosition([a, b]) == [a, b] && SortEventsByPosition([b, c]) == [c, b]
    ensures SortEventsByPosition([a, b, c]) == [a, c, b]
  {
    assert [a, b, c] == [a] + [b, c] && [b, c] == [b] + [c] && [c] == [c] + [] && [a, b] == [a] + [b] && [b] == [b] + [];
    SortCons(a, [b, c]);
    SortCons(b, [c]);
    SortCons(c, []);
    SortCons(a, [b]);
    SortCons(b, []);
    assert [c][1..] == [];
  }

  /** The pages of three events: the second one repeats the last event of the first. */
  lemma TwoPages(a: Event, b: Event, c: Event)
    requires IsProcessable(a) && IsProcessable(b) && IsProcessable(c)
    requires a.block == 1 && b.block == c.block == 2 && c.txIndex < b.txIndex
    ensures CatchUpEvents([a, b, c], 0, 2) == [a, b, c, b] && SinglePass([a, b, c], 0) == [a, c, b]
  {
    var log := [a, b, c];
    SortsOfThree(a, b, c);
    PagesOfThree(a, b, c);
    ProcessableConcat([a], [b]);
    ProcessableConcat([b], [c]);
    ProcessableConcat([a], [b, c]);
    assert log == [a] + [b, c] && [b, c] == [b] + [c] && [a, b] == [a] + [b];
    assert Processable([a]) == [a] && Processable([b]) == [b] && Processable([c]) == [c];
    assert Processable([a, b]) == [a, b] && Processable([b, c]) == [b, c] && Processable(log) == log;
    assert CatchUpEvents(log, 2, 2) == [];
    assert CatchUpEvents(log, 1, 2) == PageEvents(log, 1, 2) + [];
    assert CatchUpEvents(log, 0, 2) == [a, b] + [c, b];
  }

  lemma DistinctKeys(b: Event, c: Event)
    requires b.txHash == "b" && c.txHash == "c"
    ensures EventKey(b) != EventKey(c)
  {
    assert EventKey(b)[0] == 'b' && EventKey(c)[0] == 'c';
  }

  /** Both orders, applied from the empty checkpoint. */
  lemma OrdersApplied(a: Event, b: Event, c: Event)
    requires a.block == 1 && b.block == c.block == 2 && EventKey(b) != EventKey(c)
    ensures ApplyAll(EMPTY_STATE, [a, b, c, b]).1 == [a, b, c] && ApplyAll(EMPTY_STATE, [a, c, b]).1 == [a, c, b]
  {
    var s1 := CommitEvent(EMPTY_STATE, a);
    assert [a, b, c, b] == [a] + [b, c, b] && [b, c, b] == [b] + [c, b] && [c, b] == [c] + [b] && [b] == [b] + [];
    assert [a, c, b] == [a] + [c, b];
    ApplyCons(EMPTY_STATE, a, [b, c, b]);
    ApplyCons(EMPTY_STATE, a, [c, b]);
    ApplyCons(s1, b, [c, b]);
    ApplyCons(s1, c, [b]);
    var s2, t2 := CommitEvent(s1, b), CommitEvent(s1, c);
    assert s2 == SyncState(1, Some(2), [EventKey(b)]) && t2 == SyncState(1, Some(2), [EventKey(c)]);
    ApplyCons(s2, c, [b]);
    ApplyCons(t2, b, []);
    var s3 := CommitEvent(s2, c);
    assert s3.partialKeys == [EventKey(b), EventKey(c)] && EventKey(b) in s3.partialKeys;
    ApplyCons(s3, b, []);
  }

  /**
   * Two transactions of one block that the log lists in the opposite order, and a page that ends between
   * them: the catch-up applies the second one first.
   */
  lemma PageEndSwapsEvents() returns (log: seq<Event>)
    ensures BlockSorted(log) && Coherent(log) && NoBlockExceedsPage(log, 0, 2) && |log| == 3
    ensures ApplyAll(EMPTY_STATE, CatchUpEvents(log, 0, 2)).1 == [log[0], log[1], log[2]]
    ensures ApplyAll(EMPTY_STATE, SinglePass(log, 0)).1 == [log[0], log[2], log[1]]
  {
    var a := Event("indexer-event", "t", 1, "a", 0, 0, "s");
    var b := Event("indexer-event", "t", 2, "b", 1, 0, "s");
    var c := Event("indexer-event", "t", 2, "c", 0, 0, "s");
    log := [a, b, c];
    DistinctKeys(b, c);
    TwoPages(a, b, c);
    OrdersApplied(a, b, c);
  }
}
