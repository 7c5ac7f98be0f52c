/**
 * The REST catch-up on a fixed server log: pages that rewind by one block and drop repeats cover what one
 * pass covers, as long as no block is larger than a page.
 *
 * Models `syncRest` of packages/agent-sdk/src/blockchain/IndexerWebSocketService.ts as one
 * uninterrupted run. Interruptions and a growing log are the subject of IndexerProtocol, the order inside
 * a block the subject of CatchUpOrder.
 */
module RestCatchUp {
  import opened IndexerSync
  import opened VeranaHelpers

  const REST_PAGE_LIMIT: nat := 500

  /** Where the page after `cursor` ends in a block-ordered log. */
  function EndIndex(log: seq<Event>, cursor: int, limit: nat): nat {
    var s := StartIndex(log, cursor);
    if s + limit <= |log| then s + limit else |log|
  }

  /** What one page contributes: its processable events in position order. */
  function PageEvents(log: seq<Event>, cursor: int, limit: nat): seq<Event> {
    SortEventsByPosition(Processable(Page(log, cursor, limit)))
  }

  function NextCursor(log: seq<Event>, cursor: int, limit: nat): RestCursor {
    NextRestCursor(Page(log, cursor, limit), cursor, limit)
  }

  /** Every full page leaves a smaller distance to the highest block of the log. */
  lemma PageProgress(log: seq<Event>, cursor: int, limit: nat)
    requires limit > 0
    ensures var next := NextCursor(log, cursor, limit);
            && MaxBlock(log, cursor) >= cursor
            && (!next.done ==> cursor < next.cursor <= MaxBlock(log, cursor))
            && (!next.done ==> MaxBlock(log, next.cursor) <= MaxBlock(log, cursor))
  {
    var page := Page(log, cursor, limit);
    AfterMembers(log, cursor);
    MaxBlockIsMax(log, cursor);
    if |page| >= limit {
      forall e | e in page ensures e in log && e.block > cursor {
        assert e in After(log, cursor);
      }
      CursorProgress(page, cursor, limit);
      var next := NextRestCursor(page, cursor, limit);
      MaxBlockIsMax(log, next.cursor);
      var e :| e in page && next.cursor <= e.block;
      assert e in log;
      assert exists i :: 0 <= i < |log| && log[i] == e;
    }
  }

  /** The events that the paging loop hands to `applyEvent`, in order. */
  function CatchUpEvents(log: seq<Event>, cursor: int, limit: nat): seq<Event>
    requires limit > 0
    decreases MaxBlock(log, cursor) - cursor
  {
    var next := NextCursor(log, cursor, limit);
    PageProgress(log, cursor, limit);
    PageEvents(log, cursor, limit) +
    (if next.done then [] else CatchUpEvents(log, next.cursor, limit))
  }

  /** The loop over one page: every event goes through the two dedup checks, then is saved. */
  method ApplyPage(store: SyncStateStore, events: seq<Event>) returns (applied: seq<Event>)
    modifies store
    ensures store.Load() == ApplyAll(old(store.Load()), events).0
    ensures applied == ApplyAll(old(store.Load()), events).1
  {
    ghost var start := store.Load();
    applied := [];
    for i := 0 to |events|
      invariant store.Load() == ApplyAll(start, events[..i]).0
      invariant applied == ApplyAll(start, events[..i]).1
    {
      var e := events[i];
      ApplyAllAppend(start, events[..i], e);
      assert events[..i + 1] == events[..i] + [e];
      var state := store.Load();
      if !Covered(state, e) {
        store.Save(CommitEvent(state, e));
        applied := applied + [e];
      }
    }
    assert events[..|events|] == events;
  }

  /** One round of the paging loop. */
  method SyncPage(store: SyncStateStore, log: seq<Event>, cursor: int, limit: nat)
    returns (next: RestCursor, applied: seq<Event>)
    modifies store
    ensures next == NextCursor(log, cursor, limit)
    ensures store.Load() == ApplyAll(old(store.Load()), PageEvents(log, cursor, limit)).0
    ensures applied == ApplyAll(old(store.Load()), PageEvents(log, cursor, limit)).1
  {
    var page := Page(log, cursor, limit);
    applied := ApplyPage(store, SortEventsByPosition(Processable(page)));
    next := NextRestCursor(page, cursor, limit);
  }

  /** The pages from `cursor` on are this page and the pages after it. */
  lemma CatchUpRound(log: seq<Event>, cursor: int, limit: nat, st: SyncState)
    requires limit > 0
    ensures var next := NextCursor(log, cursor, limit);
            var (mid, first) := ApplyAll(st, PageEvents(log, cursor, limit));
            var (last, second) := if next.done then (mid, []) else ApplyAll(mid, CatchUpEvents(log, next.cursor, limit));
            ApplyAll(st, CatchUpEvents(log, cursor, limit)) == (last, first + second)
  {
    var next := NextCursor(log, cursor, limit);
    var events := PageEvents(log, cursor, limit);
    var rest := if next.done then [] else CatchUpEvents(log, next.cursor, limit);
    assert CatchUpEvents(log, cursor, limit) == events + rest;
    ApplyAllConcat(st, events, rest);
  }

  /** `syncRest`. The log and the page limit stand for the indexer that `getEvents` asks. */
  method SyncRest(store: SyncStateStore, log: seq<Event>, limit: nat) returns (applied: seq<Event>)
    requires limit > 0
    modifies store
    ensures var all := CatchUpEvents(log, old(store.Load()).lastBlockHeight, limit);
            store.Load() == ApplyAll(old(store.Load()), all).0 && applied == ApplyAll(old(store.Load()), all).1
  {
    var cursor := store.Load().lastBlockHeight;
    ghost var result := ApplyAll(store.Load(), CatchUpEvents(log, cursor, limit));
    applied := [];
    while true
      invariant result.0 == ApplyAll(store.Load(), CatchUpEvents(log, cursor, limit)).0
      invariant result.1 == applied + ApplyAll(store.Load(), CatchUpEvents(log, cursor, limit)).1
      decreases MaxBlock(log, cursor) - cursor
    {
      CatchUpRound(log, cursor, limit, store.Load());
      PageProgress(log, cursor, limit);
      var next, more := SyncPage(store, log, cursor, limit);
      applied := applied + more;
      if next.done {
        break;
      }
      cursor := next.cursor;
    }
  }

  // ---------------------------------------------------------------- what the pages reach

  /**
   * Above `cursor`, any `limit + 1` consecutive log events span more than one block; on a
   * block-ordered log this says that no block holds more than `limit` events.
   */
  ghost predicate NoBlockExceedsPage(log: seq<Event>, cursor: int, limit: nat) {
    forall i, j :: 0 <= i && i + limit == j && j < |log| && log[i].block > cursor ==> log[i].block != log[j].block
  }

  /** Log position `i` is on one of the pages the loop fetches. */
  predicate PageHolds(log: seq<Event>, cursor: int, limit: nat, i: nat)
    requires limit > 0
    decreases MaxBlock(log, cursor) - cursor
  {
    var next := NextCursor(log, cursor, limit);
    PageProgress(log, cursor, limit);
    || StartIndex(log, cursor) <= i < EndIndex(log, cursor, limit)
    || (!next.done && PageHolds(log, next.cursor, limit, i))
  }

  /** The slice of the log that a page is, and where it starts. */
  lemma PageSlice(log: seq<Event>, cursor: int, limit: nat)
    requires BlockSorted(log)
    ensures var s, t := StartIndex(log, cursor), EndIndex(log, cursor, limit);
            && 0 <= s <= t <= |log|
            && Page(log, cursor, limit) == log[s..t]
            && (t == s + limit || t == |log|)
            && (forall i :: 0 <= i < s ==> log[i].block <= cursor)
            && (forall i :: s <= i < |log| ==> log[i].block > cursor)
  {
    FirstAboveIsFirst(log, cursor, 0);
    AfterIsSuffixFrom(log, cursor, 0);
    assert log[0..] == log;
    var s := StartIndex(log, cursor);
    forall i | s <= i < |log| ensures log[i].block > cursor {
      assert log[s].block <= log[i].block;
    }
  }

  lemma StartIndexBound(log: seq<Event>, cursor: int, i: nat)
    requires i < |log| && log[i].block > cursor
    ensures StartIndex(log, cursor) <= i
  {
    FirstAboveIsFirst(log, cursor, 0);
  }

  lemma PositionSortedIsBlockSorted(log: seq<Event>)
    requires PositionSorted(log)
    ensures BlockSorted(log)
  {
    forall i, j | 0 <= i < j < |log| ensures log[i].block <= log[j].block {
      assert PositionLeq(log[i], log[j]);
    }
  }

  /** After a full page, the next page starts where this one ends, or before. */
  lemma FullPageCursor(log: seq<Event>, cursor: int, limit: nat, s: nat, t: nat)
    requires limit > 0 && BlockSorted(log) && NoBlockExceedsPage(log, cursor, limit)
    requires s + limit == t <= |log|
    requires forall i :: s <= i < t ==> log[i].block > cursor
    ensures var next := NextRestCursor(log[s..t], cursor, limit);
            && !next.done && cursor <= next.cursor
            && (log[t - 1].block > next.cursor || (t < |log| ==> log[t].block > next.cursor))
  {
    var page := log[s..t];
    forall e | e in page ensures e.block > cursor && e.block <= log[t - 1].block {
      var k :| 0 <= k < |page| && page[k] == e;
      assert page[k] == log[s + k];
    }
    CursorProgress(page, cursor, limit);
    assert page[0] in page && page[0] == log[s];
    if t < |log| {
      assert log[t].block != log[s].block && log[s].block <= log[t].block;
    }
  }

  lemma NextPageOverlaps(log: seq<Event>, cursor: int, limit: nat)
    requires limit > 0 && BlockSorted(log) && NoBlockExceedsPage(log, cursor, limit)
    ensures var next := NextCursor(log, cursor, limit);
            && cursor <= next.cursor
            && NoBlockExceedsPage(log, next.cursor, limit)
            && (next.done ==> EndIndex(log, cursor, limit) == |log|)
            && (!next.done ==> StartIndex(log, next.cursor) <= EndIndex(log, cursor, limit))
  {
    var s, t := StartIndex(log, cursor), EndIndex(log, cursor, limit);
    var next := NextCursor(log, cursor, limit);
    PageSlice(log, cursor, limit);
    if !next.done {
      FullPageCursor(log, cursor, limit, s, t);
      if log[t - 1].block > next.cursor {
        StartIndexBound(log, next.cursor, t - 1);
      } else if t < |log| {
        StartIndexBound(log, next.cursor, t);
      } else {
        PageSlice(log, next.cursor, limit);
      }
    }
  }

  /** The event `limit` places behind one of its own block is on no page at all. */
  lemma {:induction false} OversizeTailIsSkipped(log: seq<Event>, cursor: int, limit: nat, i: nat, j: nat)
    requires limit > 0 && BlockSorted(log)
    requires i + limit == j < |log| && log[i].block == log[j].block
    ensures !PageHolds(log, cursor, limit, j)
    decreases MaxBlock(log, cursor) - cursor
  {
    var next := NextCursor(log, cursor, limit);
    PageProgress(log, cursor, limit);
    PageSlice(log, cursor, limit);
    if !next.done {
      OversizeTailIsSkipped(log, next.cursor, limit, i, j);
    }
  }

  lemma {:induction false} PagesHoldEverything(log: seq<Event>, cursor: int, limit: nat, i: nat)
    requires limit > 0 && BlockSorted(log) && NoBlockExceedsPage(log, cursor, limit)
    requires i < |log| && log[i].block > cursor
    ensures PageHolds(log, cursor, limit, i)
    decreases MaxBlock(log, cursor) - cursor
  {
    var next := NextCursor(log, cursor, limit);
    PageProgress(log, cursor, limit);
    NextPageOverlaps(log, cursor, limit);
    PageSlice(log, cursor, limit);
    if i >= EndIndex(log, cursor, limit) {
      PageSlice(log, next.cursor, limit);
      PagesHoldEverything(log, next.cursor, limit, i);
    }
  }

  /**
   * The catch-up fetches every event above the cursor exactly when no block above the cursor holds
   * more events than a page.
   */
  lemma CatchUpIsCompleteIff(log: seq<Event>, cursor: int, limit: nat)
    requires limit > 0 && BlockSorted(log)
    ensures (forall i: nat :: i < |log| && log[i].block > cursor ==> PageHolds(log, cursor, limit, i)) <==>
            NoBlockExceedsPage(log, cursor, limit)
  {
    if NoBlockExceedsPage(log, cursor, limit) {
      forall i: nat | i < |log| && log[i].block > cursor ensures PageHolds(log, cursor, limit, i) {
        PagesHoldEverything(log, cursor, limit, i);
      }
    } else {
      var i, j :| 0 <= i && i + limit == j && j < |log| && log[i].block > cursor && log[i].block == log[j].block;
      OversizeTailIsSkipped(log, cursor, limit, i, j);
      assert log[j].block > cursor && !PageHolds(log, cursor, limit, j);
    }
  }

  // ---------------------------------------------------------------- the refinement

  /** The same events with each page in the order of the log. */
  function PagesInLogOrder(log: seq<Event>, cursor: int, limit: nat): seq<Event>
    requires limit > 0
    decreases MaxBlock(log, cursor) - cursor
  {
    var next := NextCursor(log, cursor, limit);
    PageProgress(log, cursor, limit);
    Processable(Page(log, cursor, limit)) +
    (if next.done then [] else PagesInLogOrder(log, next.cursor, limit))
  }

  /** A pass over a stretch of the log covers the stretch. */
  lemma StretchCovered(log: seq<Event>, read: nat, read': nat, st: SyncState)
    requires Valid(st) && read <= read' <= |log|
    requires forall i :: 0 <= i < read && IsProcessable(log[i]) ==> Covered(st, log[i])
    ensures var mid := ApplyAll(st, Processable(log[read..read'])).0;
            Valid(mid) && forall i :: 0 <= i < read' && IsProcessable(log[i]) ==> Covered(mid, log[i])
  {
    var added := Processable(log[read..read']);
    ApplyAllCovers(st, added);
    ProcessableMembers(log[read..read']);
    forall i | read <= i < read' && IsProcessable(log[i]) ensures log[i] in added {
      assert log[i] == log[read..read'][i - read];
    }
  }

  lemma PassSplits(log: seq<Event>, read: nat, read': nat, st: SyncState)
    requires read <= read' <= |log|
    ensures var (mid, first) := ApplyAll(st, Processable(log[read..read']));
            var (last, second) := ApplyAll(mid, Processable(log[read'..]));
            ApplyAll(st, Processable(log[read..])) == (last, first + second)
  {
    assert log[read..] == log[read..read'] + log[read'..];
    ProcessableConcat(log[read..read'], log[read'..]);
    ApplyAllConcat(st, Processable(log[read..read']), Processable(log[read'..]));
  }

  /** Of a page that overlaps what was read before, only the part beyond it has an effect. */
  lemma PageAddsFreshEvents(log: seq<Event>, s: nat, t: nat, read: nat, read': nat, st: SyncState)
    requires s <= t <= |log| && s <= read <= |log| && read' == (if t < read then read else t)
    requires forall i :: 0 <= i < read && IsProcessable(log[i]) ==> Covered(st, log[i])
    ensures ApplyAll(st, Processable(log[s..t])) == ApplyAll(st, Processable(log[read..read']))
  {
    var seen := log[s..if t < read then t else read];
    ProcessableMembers(seen);
    forall e | e in Processable(seen) ensures Covered(st, e) {
      var k :| 0 <= k < |seen| && seen[k] == e;
      assert e == log[s + k];
    }
    assert log[s..t] == seen + log[read..read'];
    ProcessableConcat(seen, log[read..read']);
    ApplyAllSkips(st, Processable(seen));
    ApplyAllConcat(st, Processable(seen), Processable(log[read..read']));
    var (last, second) := ApplyAll(st, Processable(log[read..read']));
    assert [] + second == second;
  }

  /**
   * `read` is how much of the log the earlier pages have covered. From there on, the pages that rewind
   * have the effect of one pass over the rest of the log.
   */
  lemma {:induction false} PagesRefineRest(log: seq<Event>, cursor: int, limit: nat, st: SyncState, read: nat)
    requires limit > 0 && BlockSorted(log) && NoBlockExceedsPage(log, cursor, limit) && Valid(st)
    requires StartIndex(log, cursor) <= read <= |log|
    requires forall i :: 0 <= i < read && IsProcessable(log[i]) ==> Covered(st, log[i])
    ensures ApplyAll(st, PagesInLogOrder(log, cursor, limit)) == ApplyAll(st, Processable(log[read..]))
    decreases MaxBlock(log, cursor) - cursor
  {
    var s, t := StartIndex(log, cursor), EndIndex(log, cursor, limit);
    var page := Page(log, cursor, limit);
    var next := NextCursor(log, cursor, limit);
    PageProgress(log, cursor, limit);
    NextPageOverlaps(log, cursor, limit);
    PageSlice(log, cursor, limit);
    var read' := if t < read then read else t;
    PageAddsFreshEvents(log, s, t, read, read', st);
    var mid := ApplyAll(st, Processable(log[read..read'])).0;
    StretchCovered(log, read, read', st);
    PassSplits(log, read, read', st);
    var rest := if next.done then [] else PagesInLogOrder(log, next.cursor, limit);
    assert PagesInLogOrder(log, cursor, limit) == Processable(page) + rest;
    ApplyAllConcat(st, Processable(page), rest);
    if !next.done {
      PagesRefineRest(log, next.cursor, limit, mid, read');
    }
  }

  /** Pages climb: no event of a page lies below an event of an earlier one. */
  lemma {:induction false} CatchUpClimbs(log: seq<Event>, cursor: int, limit: nat)
    requires limit > 0
    ensures BlockSorted(CatchUpEvents(log, cursor, limit))
    ensures forall e :: e in CatchUpEvents(log, cursor, limit) ==> e in log && IsProcessable(e) && e.block > cursor
    ensures forall e :: e in CatchUpEvents(log, cursor, limit) <==> e in PagesInLogOrder(log, cursor, limit)
    decreases MaxBlock(log, cursor) - cursor
  {
    var page := Page(log, cursor, limit);
    var next := NextCursor(log, cursor, limit);
    var events := PageEvents(log, cursor, limit);
    PageProgress(log, cursor, limit);
    PageMembers(log, cursor, limit);
    SortMembers(Processable(page));
    if !next.done {
      CatchUpClimbs(log, next.cursor, limit);
      var rest := CatchUpEvents(log, next.cursor, limit);
      assert CatchUpEvents(log, cursor, limit) == events + rest;
      forall i, j | 0 <= i < |events| && 0 <= j < |rest| ensures events[i].block <= rest[j].block {
        assert events[i] in events && rest[j] in rest;
      }
    }
  }

  /** The events of a page lie above its cursor, and at most one block above the next one. */
  lemma PageMembers(log: seq<Event>, cursor: int, limit: nat)
    requires limit > 0
    ensures forall e :: e in Page(log, cursor, limit) ==> e in log && e.block > cursor
    ensures var next := NextCursor(log, cursor, limit);
            !next.done ==> forall e :: e in Page(log, cursor, limit) ==> e.block <= next.cursor + 1
    ensures forall e :: e in Processable(Page(log, cursor, limit)) <==> e in Page(log, cursor, limit) && IsProcessable(e)
  {
    var page := Page(log, cursor, limit);
    AfterMembers(log, cursor);
    ProcessableMembers(page);
    forall e | e in page ensures e in log && e.block > cursor {
      assert e in After(log, cursor);
    }
    MaxBlockIsMax(page, cursor);
  }

  lemma {:induction false} HeldIsCaughtUp(log: seq<Event>, cursor: int, limit: nat, i: nat)
    requires limit > 0 && BlockSorted(log) && i < |log|
    requires PageHolds(log, cursor, limit, i) && IsProcessable(log[i])
    ensures log[i] in CatchUpEvents(log, cursor, limit)
    decreases MaxBlock(log, cursor) - cursor
  {
    var next := NextCursor(log, cursor, limit);
    PageProgress(log, cursor, limit);
    var s, t := StartIndex(log, cursor), EndIndex(log, cursor, limit);
    if s <= i < t {
      PageSlice(log, cursor, limit);
      assert Page(log, cursor, limit)[i - s] == log[i];
      PageMembers(log, cursor, limit);
      SortMembers(Processable(Page(log, cursor, limit)));
    } else {
      HeldIsCaughtUp(log, next.cursor, limit, i);
    }
  }

  /** The catch-up hands over the processable events above the cursor, and no others. */
  lemma CatchUpMembers(log: seq<Event>, cursor: int, limit: nat)
    requires limit > 0 && BlockSorted(log) && NoBlockExceedsPage(log, cursor, limit)
    ensures forall e :: e in CatchUpEvents(log, cursor, limit) <==> e in log && IsProcessable(e) && e.block > cursor
  {
    CatchUpClimbs(log, cursor, limit);
    forall e | e in log && IsProcessable(e) && e.block > cursor ensures e in CatchUpEvents(log, cursor, limit) {
      var i :| 0 <= i < |log| && log[i] == e;
      PagesHoldEverything(log, cursor, limit, i);
      HeldIsCaughtUp(log, cursor, limit, i);
    }
  }

  /** One unpaged pass: the processable events above a height, sorted. */
  function SinglePass(log: seq<Event>, cursor: int): seq<Event> {
    SortEventsByPosition(Processable(After(log, cursor)))
  }

  lemma SinglePassMembers(log: seq<Event>, cursor: int)
    ensures BlockSorted(SinglePass(log, cursor))
    ensures forall e :: e in SinglePass(log, cursor) <==> e in log && IsProcessable(e) && e.block > cursor
  {
    AfterMembers(log, cursor);
    ProcessableMembers(After(log, cursor));
    SortMembers(Processable(After(log, cursor)));
  }

  /**
   * Main result. On a block-ordered log without oversize blocks the catch-up from a stored checkpoint
   * covers what a single unpaged pass covers. It applies processable events of the log that the
   * checkpoint does not cover, misses none of them, none twice, and in the order of their blocks.
   */
  lemma CatchUpRefinesSinglePass(log: seq<Event>, limit: nat, st: SyncState)
    requires limit > 0 && BlockSorted(log) && Valid(st)
    requires NoBlockExceedsPage(log, st.lastBlockHeight, limit)
    ensures var (last, applied) := ApplyAll(st, CatchUpEvents(log, st.lastBlockHeight, limit));
            && (forall f :: Covered(last, f) <==> Covered(ApplyAll(st, SinglePass(log, st.lastBlockHeight)).0, f))
            && (forall e :: e in applied ==> e in log && IsProcessable(e) && !Covered(st, e))
            && (forall e :: e in log && IsProcessable(e) && !Covered(st, e) ==> Repeats(applied, e))
            && (forall i, j :: 0 <= i < j < |applied| ==> !SameEvent(applied[i], applied[j]))
            && BlockSorted(applied)
  {
    var pages, single := CatchUpEvents(log, st.lastBlockHeight, limit), SinglePass(log, st.lastBlockHeight);
    CatchUpClimbs(log, st.lastBlockHeight, limit);
    CatchUpMembers(log, st.lastBlockHeight, limit);
    SinglePassMembers(log, st.lastBlockHeight);
    PassAppliesNewEvents(st, pages);
    NewEventsMembers(st, pages);
    NewEventsClimb(st, pages);
    forall f ensures Covered(ApplyAll(st, pages).0, f) <==> Covered(ApplyAll(st, single).0, f) {
      PassCoverage(st, pages, f);
      PassCoverage(st, single, f);
      assert ReachedBy(st, pages, f) <==> ReachedBy(st, single, f);
    }
  }

  lemma {:induction false} NewEventsClimb(st: SyncState, es: seq<Event>)
    requires BlockSorted(es)
    ensures BlockSorted(NewEvents(st, es))
  {
    if es != [] {
      var n := |es| - 1;
      NewEventsClimb(st, es[..n]);
      NewEventsMembers(st, es[..n]);
      var before := NewEvents(st, es[..n]);
      forall i | 0 <= i < |before| ensures before[i].block <= es[n].block {
        assert before[i] in es[..n];
      }
    }
  }
}
