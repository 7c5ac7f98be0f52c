/**
 * The durable checkpoint of the indexer synchronisation, and the effect that one applied event has
 * on it.
 *
 * Models packages/agent-sdk/src/blockchain/VeranaHelpers.ts and the checkpoint arithmetic of
 * `applyEvent` in IndexerWebSocketService.ts. The registries that `applyStateMutation` keeps beside
 * the checkpoint are not part of this model.
 */
module VeranaHelpers {
  import opened Options
  import opened IndexerSync

  /** A missing `partialKeys` reads as the empty list. */
  datatype SyncState = SyncState(lastBlockHeight: int, partialBlock: Option<int>, partialKeys: seq<string>)

  const EMPTY_STATE := SyncState(0, None, [])

  /** The generic record that holds the checkpoint. */
  class SyncStateStore {
    var record: Option<Option<SyncState>>

    constructor ()
      ensures record == None && Load() == EMPTY_STATE
    {
      record := None;
    }

    /** `loadSyncState`: a missing record, and a record without content, read as the empty state. */
    function Load(): SyncState
      reads this
    {
      match record
      case None => EMPTY_STATE
      case Some(None) => EMPTY_STATE
      case Some(Some(state)) => state
    }

    /** `saveSyncState`: creates the record or overwrites its content. */
    method Save(state: SyncState)
      modifies this
      ensures Load() == state
    {
      match record {
        case Some(_) => record := Some(Some(state));
        case None => record := Some(Some(state));
      }
    }
  }

  // ---------------------------------------------------------------- one event

  /** The two early returns of `applyEvent`: the checkpoint already accounts for this event. */
  predicate Covered(st: SyncState, e: Event) {
    e.block <= st.lastBlockHeight || (st.partialBlock == Some(e.block) && EventKey(e) in st.partialKeys)
  }

  function Max(a: int, b: int): int { if a >= b then a else b }

  /** The checkpoint `applyEvent` saves after the changes of an uncovered event are applied. */
  function CommitEvent(st: SyncState, e: Event): SyncState {
    SyncState(
      Max(st.lastBlockHeight, e.block - 1),
      if st.partialBlock == None || e.block > st.partialBlock.value then Some(e.block) else st.partialBlock,
      if st.partialBlock == None || e.block > st.partialBlock.value then [EventKey(e)]
      else st.partialKeys + [EventKey(e)])
  }

  /** The partial block is at most one above the last complete block. */
  ghost predicate Valid(st: SyncState) {
    st.partialBlock == None || st.partialBlock.value <= st.lastBlockHeight + 1
  }

  /** Two events that the checkpoint cannot tell apart. */
  predicate SameEvent(e: Event, f: Event) {
    e.block == f.block && EventKey(e) == EventKey(f)
  }

  /**
   * Committing an uncovered event covers that event and keeps every event covered that was. Beyond
   * those, it covers exactly the events of the blocks below it.
   */
  lemma CommitCovers(st: SyncState, e: Event, f: Event)
    requires Valid(st) && !Covered(st, e)
    ensures Valid(CommitEvent(st, e))
    ensures CommitEvent(st, e).partialBlock == Some(e.block)
    ensures CommitEvent(st, e).lastBlockHeight == e.block - 1
    ensures Covered(CommitEvent(st, e), f) <==> Covered(st, f) || SameEvent(e, f) || f.block < e.block
  {
  }

  /** One pass over a list of events: the final checkpoint, and the events that were applied. */
  function ApplyAll(st: SyncState, es: seq<Event>): (SyncState, seq<Event>)
    decreases |es|
  {
    if es == [] then (st, [])
    else if Covered(st, es[0]) then ApplyAll(st, es[1..])
    else
      var (last, applied) := ApplyAll(CommitEvent(st, es[0]), es[1..]);
      (last, [es[0]] + applied)
  }

  lemma {:induction false} ApplyAllConcat(st: SyncState, a: seq<Event>, b: seq<Event>)
    ensures ApplyAll(st, a + b) ==
            var (mid, first) := ApplyAll(st, a);
            var (last, second) := ApplyAll(mid, b);
            (last, first + second)
    decreases |a|
  {
    if a == [] {
      assert a + b == b;
      var (last, second) := ApplyAll(st, b);
      assert [] + second == second;
    } else {
      assert (a + b)[1..] == a[1..] + b;
      if Covered(st, a[0]) {
        ApplyAllConcat(st, a[1..], b);
      } else {
        var next := CommitEvent(st, a[0]);
        ApplyAllConcat(next, a[1..], b);
        var (mid, first) := ApplyAll(next, a[1..]);
        var (last, second) := ApplyAll(mid, b);
        assert [a[0]] + (first + second) == ([a[0]] + first) + second;
      }
    }
  }

  lemma ApplyAllAppend(st: SyncState, a: seq<Event>, e: Event)
    ensures var (mid, first) := ApplyAll(st, a);
            ApplyAll(st, a + [e]) ==
            if Covered(mid, e) then (mid, first) else (CommitEvent(mid, e), first + [e])
  {
    ApplyAllConcat(st, a, [e]);
    var (mid, first) := ApplyAll(st, a);
    var (last, second) := ApplyAll(mid, [e]);
    if Covered(mid, e) {
      assert first + second == first;
    } else {
      assert second == [e];
    }
  }

  /** A pass keeps the checkpoint valid, covers its events, and uncovers nothing. */
  lemma {:induction false} ApplyAllCovers(st: SyncState, es: seq<Event>)
    requires Valid(st)
    ensures Valid(ApplyAll(st, es).0)
    ensures forall f :: Covered(st, f) ==> Covered(ApplyAll(st, es).0, f)
    ensures forall e :: e in es ==> Covered(ApplyAll(st, es).0, e)
    decreases |es|
  {
    if es != [] {
      var next := if Covered(st, es[0]) then st else CommitEvent(st, es[0]);
      if !Covered(st, es[0]) {
        forall f | Covered(st, f) || f == es[0] ensures Covered(next, f) {
          CommitCovers(st, es[0], f);
        }
        CommitCovers(st, es[0], es[0]);
      }
      ApplyAllCovers(next, es[1..]);
      assert es == [es[0]] + es[1..];
    }
  }

  /** Events that the checkpoint covers already leave no trace. */
  lemma {:induction false} ApplyAllSkips(st: SyncState, es: seq<Event>)
    requires forall e :: e in es ==> Covered(st, e)
    ensures ApplyAll(st, es) == (st, [])
  {
    if es != [] {
      assert es[0] in es;
      ApplyAllSkips(st, es[1..]);
    }
  }

  // ---------------------------------------------------------------- reference: which events one pass applies

  /** Some event of the list is the same as `e`. */
  predicate Repeats(es: seq<Event>, e: Event) {
    exists j :: 0 <= j < |es| && SameEvent(es[j], e)
  }

  /** The events of the list that `st` does not cover, each where it occurs first. */
  function NewEvents(st: SyncState, es: seq<Event>): seq<Event> {
    if es == [] then []
    else
      var n := |es| - 1;
      NewEvents(st, es[..n]) + (if !Covered(st, es[n]) && !Repeats(es[..n], es[n]) then [es[n]] else [])
  }

  lemma NewEventsSnoc(st: SyncState, es: seq<Event>, e: Event)
    ensures NewEvents(st, es + [e]) ==
            NewEvents(st, es) + (if !Covered(st, e) && !Repeats(es, e) then [e] else [])
  {
    assert (es + [e])[..|es + [e]| - 1] == es;
  }

  /** Passing over an uncovered event reaches that event and the blocks below it. */
  predicate Reaches(st: SyncState, e: Event, f: Event) {
    !Covered(st, e) && (SameEvent(e, f) || f.block < e.block)
  }

  ghost predicate ReachedBy(st: SyncState, es: seq<Event>, f: Event) {
    exists e :: e in es && Reaches(st, e, f)
  }

  /** What a pass over a block-ordered list covers depends on the members of the list alone. */
  lemma {:induction false} PassCoverage(st: SyncState, es: seq<Event>, f: Event)
    requires Valid(st) && BlockSorted(es)
    ensures Valid(ApplyAll(st, es).0)
    ensures Covered(ApplyAll(st, es).0, f) <==> Covered(st, f) || ReachedBy(st, es, f)
  {
    if es != [] {
      var n := |es| - 1;
      var e, mid := es[n], ApplyAll(st, es[..n]).0;
      assert es == es[..n] + [e];
      ApplyAllAppend(st, es[..n], e);
      PassCoverage(st, es[..n], f);
      PassCoverage(st, es[..n], e);
      if Covered(mid, e) {
        if Reaches(st, e, f) {
          var d :| d in es[..n] && Reaches(st, d, e);
          assert Reaches(st, d, f);
        }
      } else {
        CommitCovers(mid, e, f);
        assert Reaches(st, e, f) <==> SameEvent(e, f) || f.block < e.block;
      }
      assert ReachedBy(st, es, f) <==> ReachedBy(st, es[..n], f) || Reaches(st, e, f);
    }
  }

  /**
   * A pass over a block-ordered list applies exactly the events the checkpoint does not cover, in
   * list order, and repeats of an event only once.
   */
  lemma {:induction false} PassAppliesNewEvents(st: SyncState, es: seq<Event>)
    requires Valid(st) && BlockSorted(es)
    ensures ApplyAll(st, es).1 == NewEvents(st, es)
  {
    if es != [] {
      var n := |es| - 1;
      assert es == es[..n] + [es[n]];
      ApplyAllAppend(st, es[..n], es[n]);
      PassAppliesNewEvents(st, es[..n]);
      PassCoverage(st, es[..n], es[n]);
      CoveredOrRepeats(st, es[..n], es[n]);
    }
  }

  /** No later event of a block-ordered list lies below a block of the list. */
  lemma CoveredOrRepeats(st: SyncState, es: seq<Event>, f: Event)
    requires forall e :: e in es ==> e.block <= f.block
    ensures Covered(st, f) || ReachedBy(st, es, f) <==> Covered(st, f) || Repeats(es, f)
  {
    if Repeats(es, f) && !Covered(st, f) {
      var j :| 0 <= j < |es| && SameEvent(es[j], f);
      assert es[j] in es && Reaches(st, es[j], f);
    }
  }

  lemma NotRepeated(es: seq<Event>, d: Event, e: Event)
    requires d in es && !Repeats(es, e)
    ensures !SameEvent(d, e)
  {
    var k :| 0 <= k < |es| && es[k] == d;
  }

  lemma RepeatsMore(es: seq<Event>, more: seq<Event>, e: Event)
    requires Repeats(es, e)
    ensures Repeats(es + more, e)
  {
    var j :| 0 <= j < |es| && SameEvent(es[j], e);
    assert (es + more)[j] == es[j];
  }

  lemma {:induction false} NewEventsAreNew(st: SyncState, es: seq<Event>)
    ensures forall e :: e in NewEvents(st, es) ==> e in es && !Covered(st, e)
  {
    if es != [] {
      NewEventsAreNew(st, es[..|es| - 1]);
    }
  }

  lemma {:induction false} NewEventIsListed(st: SyncState, es: seq<Event>, e: Event)
    requires Repeats(es, e) && !Covered(st, e)
    ensures Repeats(NewEvents(st, es), e)
  {
    var n := |es| - 1;
    var last, before := es[n], NewEvents(st, es[..n]);
    var more := if !Covered(st, last) && !Repeats(es[..n], last) then [last] else [];
    var k :| 0 <= k <= n && SameEvent(es[k], e);
    if k < n {
      assert es[..n][k] == es[k];
    } else if Repeats(es[..n], last) {
      var i :| 0 <= i < n && SameEvent(es[..n][i], last);
      assert SameEvent(es[..n][i], e);
    }
    if Repeats(es[..n], e) {
      NewEventIsListed(st, es[..n], e);
      RepeatsMore(before, more, e);
    } else {
      assert more == [last] && (before + more)[|before|] == last;
    }
  }

  lemma {:induction false} NewEventsOnce(st: SyncState, es: seq<Event>)
    ensures forall i, j :: 0 <= i < j < |NewEvents(st, es)| ==> !SameEvent(NewEvents(st, es)[i], NewEvents(st, es)[j])
  {
    if es != [] {
      var n := |es| - 1;
      var before, all := NewEvents(st, es[..n]), NewEvents(st, es);
      NewEventsOnce(st, es[..n]);
      NewEventsAreNew(st, es[..n]);
      forall i, j | 0 <= i < j < |all| ensures !SameEvent(all[i], all[j]) {
        if j == |before| {
          NotRepeated(es[..n], before[i], es[n]);
        }
      }
    }
  }

  /** The new events of a list, each once. */
  lemma NewEventsMembers(st: SyncState, es: seq<Event>)
    ensures forall e :: e in NewEvents(st, es) ==> e in es && !Covered(st, e)
    ensures forall e :: e in es && !Covered(st, e) ==> Repeats(NewEvents(st, es), e)
    ensures forall i, j :: 0 <= i < j < |NewEvents(st, es)| ==> !SameEvent(NewEvents(st, es)[i], NewEvents(st, es)[j])
  {
    NewEventsAreNew(st, es);
    NewEventsOnce(st, es);
    forall e | e in es && !Covered(st, e) ensures Repeats(NewEvents(st, es), e) {
      var k :| 0 <= k < |es| && es[k] == e;
      assert SameEvent(es[k], e);
      NewEventIsListed(st, es, e);
    }
  }
}
