/**
 * The pure half of the indexer synchronisation: event identity, the processable filter, the order
 * in which events are applied, and the cursor rule of the REST catch-up.
 *
 * Models packages/agent-sdk/src/blockchain/indexerSync.ts and the page contract of `getEvents`.
 */
module IndexerSync {
  import opened Options
  import opened Strings

  /** The fields of an indexer event that the synchronisation reads. A missing sender is "". */
  datatype Event = Event(
    kind: string,
    eventType: string,
    block: int,
    txHash: string,
    txIndex: nat,
    messageIndex: nat,
    sender: string)

  predicate IsProcessable(e: Event) {
    e.kind == "indexer-event" && e.block > 0 && e.sender != ""
  }

  function Processable(es: seq<Event>): seq<Event> {
    if es == [] then []
    else (if IsProcessable(es[0]) then [es[0]] else []) + Processable(es[1..])
  }

  // ---------------------------------------------------------------- event keys

  function EventKey(e: Event): string {
    e.txHash + ":" + Decimal(e.messageIndex) + ":" + e.eventType
  }

  /** The first colon decides where the head ends. */
  lemma {:induction false} SplitAtColon(a: string, x: string, b: string, y: string)
    requires ':' !in a && ':' !in b
    requires a + ":" + x == b + ":" + y
    ensures a == b && x == y
  {
    var s := a + ":" + x;
    var t := b + ":" + y;
    assert s[|a|] == ':' && t[|b|] == ':';
    assert forall i :: 0 <= i < |a| ==> s[i] == a[i] != ':';
    assert forall i :: 0 <= i < |b| ==> t[i] == b[i] != ':';
    assert a == s[..|a|] == t[..|b|] == b;
    assert x == s[|a| + 1..] == t[|b| + 1..] == y;
  }

  /** Two events share a key exactly when they share transaction, message and type. */
  lemma EventKeyIdentifies(e: Event, f: Event)
    requires ':' !in e.txHash && ':' !in f.txHash
    ensures EventKey(e) == EventKey(f) <==>
            e.txHash == f.txHash && e.messageIndex == f.messageIndex && e.eventType == f.eventType
  {
    if EventKey(e) == EventKey(f) {
      DecimalHasNoColon(e.messageIndex);
      DecimalHasNoColon(f.messageIndex);
      var x := Decimal(e.messageIndex) + ":" + e.eventType;
      var y := Decimal(f.messageIndex) + ":" + f.eventType;
      assert EventKey(e) == e.txHash + ":" + x;
      assert EventKey(f) == f.txHash + ":" + y;
      SplitAtColon(e.txHash, x, f.txHash, y);
      SplitAtColon(Decimal(e.messageIndex), e.eventType, Decimal(f.messageIndex), f.eventType);
      DecimalInjective(e.messageIndex, f.messageIndex);
    }
  }

  // ---------------------------------------------------------------- position order

  predicate PositionLeq(a: Event, b: Event) {
    if a.block != b.block then a.block < b.block
    else if a.txIndex != b.txIndex then a.txIndex < b.txIndex
    else a.messageIndex <= b.messageIndex
  }

  predicate SamePosition(a: Event, b: Event) {
    a.block == b.block && a.txIndex == b.txIndex && a.messageIndex == b.messageIndex
  }

  function Insert(e: Event, s: seq<Event>): seq<Event> {
    if s == [] then [e]
    else if PositionLeq(e, s[0]) then [e] + s
    else [s[0]] + Insert(e, s[1..])
  }

  /** `Array.prototype.sort` with the position comparator: a stable sort that leaves its input alone. */
  function SortEventsByPosition(s: seq<Event>): seq<Event> {
    if s == [] then [] else Insert(s[0], SortEventsByPosition(s[1..]))
  }

  ghost predicate PositionSorted(s: seq<Event>) {
    forall i, j :: 0 <= i < j < |s| ==> PositionLeq(s[i], s[j])
  }

  ghost predicate BlockSorted(s: seq<Event>) {
    forall i, j :: 0 <= i < j < |s| ==> s[i].block <= s[j].block
  }

  /** The subsequence of events at the position of `p`, in order. */
  function AtPosition(s: seq<Event>, p: Event): seq<Event> {
    if s == [] then []
    else (if SamePosition(s[0], p) then [s[0]] else []) + AtPosition(s[1..], p)
  }

  lemma {:induction false} InsertSorted(e: Event, s: seq<Event>)
    requires PositionSorted(s)
    ensures PositionSorted(Insert(e, s))
    ensures multiset(Insert(e, s)) == multiset{e} + multiset(s)
  {
    if s == [] {
    } else if PositionLeq(e, s[0]) {
    } else {
      assert s == [s[0]] + s[1..];
      InsertSorted(e, s[1..]);
      var t := Insert(e, s[1..]);
      forall i | 0 <= i < |t| ensures PositionLeq(s[0], t[i]) {
        assert t[i] in multiset(t);
        if t[i] != e {
          assert t[i] in s[1..];
        }
      }
    }
  }

  lemma {:induction false} InsertStable(e: Event, s: seq<Event>, p: Event)
    ensures AtPosition(Insert(e, s), p) == AtPosition([e], p) + AtPosition(s, p)
  {
    if s != [] && !PositionLeq(e, s[0]) {
      InsertStable(e, s[1..], p);
      assert Insert(e, s)[1..] == Insert(e, s[1..]);
    } else {
      assert ([e] + s)[1..] == s;
    }
  }

  lemma {:induction false} SortOrders(s: seq<Event>)
    ensures PositionSorted(SortEventsByPosition(s))
    ensures multiset(SortEventsByPosition(s)) == multiset(s)
  {
    if s != [] {
      SortOrders(s[1..]);
      assert s == [s[0]] + s[1..];
      InsertSorted(s[0], SortEventsByPosition(s[1..]));
    }
  }

  lemma {:induction false} SortStable(s: seq<Event>, p: Event)
    ensures AtPosition(SortEventsByPosition(s), p) == AtPosition(s, p)
  {
    if s != [] {
      SortStable(s[1..], p);
      InsertStable(s[0], SortEventsByPosition(s[1..]), p);
      assert AtPosition([s[0]], p) == if SamePosition(s[0], p) then [s[0]] else [];
    }
  }

  /** The sort orders by block, transaction and message, keeps every event, and is stable. */
  lemma SortIsStableSort(s: seq<Event>)
    ensures PositionSorted(SortEventsByPosition(s))
    ensures multiset(SortEventsByPosition(s)) == multiset(s)
    ensures forall p :: AtPosition(SortEventsByPosition(s), p) == AtPosition(s, p)
  {
    SortOrders(s);
    forall p ensures AtPosition(SortEventsByPosition(s), p) == AtPosition(s, p) {
      SortStable(s, p);
    }
  }

  /** An event list that is in position order already is left as it is. */
  lemma {:induction false} SortOfSorted(s: seq<Event>)
    requires PositionSorted(s)
    ensures SortEventsByPosition(s) == s
  {
    if s != [] {
      SortOfSorted(s[1..]);
      assert |s| > 1 ==> PositionLeq(s[0], s[1]);
      assert s == [s[0]] + s[1..];
    }
  }

  lemma SortMembers(s: seq<Event>)
    ensures BlockSorted(SortEventsByPosition(s))
    ensures forall e :: e in SortEventsByPosition(s) <==> e in s
  {
    SortOrders(s);
    var t := SortEventsByPosition(s);
    forall i, j | 0 <= i < j < |t| ensures t[i].block <= t[j].block {
      assert PositionLeq(t[i], t[j]);
    }
    forall e ensures e in t <==> e in s {
      assert e in t <==> e in multiset(t);
      assert e in s <==> e in multiset(s);
    }
  }

  lemma {:induction false} ProcessableMembers(es: seq<Event>)
    ensures forall e :: e in Processable(es) <==> e in es && IsProcessable(e)
  {
    if es != [] {
      ProcessableMembers(es[1..]);
      assert es == [es[0]] + es[1..];
    }
  }

  lemma {:induction false} ProcessableConcat(a: seq<Event>, b: seq<Event>)
    ensures Processable(a + b) == Processable(a) + Processable(b)
    decreases |a|
  {
    if a == [] {
      assert a + b == b;
    } else {
      ProcessableConcat(a[1..], b);
      assert (a + b)[1..] == a[1..] + b;
      var head := if IsProcessable(a[0]) then [a[0]] else [];
      assert Processable(a + b) == head + (Processable(a[1..]) + Processable(b));
    }
  }

  // ---------------------------------------------------------------- pages and cursor

  /** The events of the log above a block height, in log order. */
  function After(log: seq<Event>, cursor: int): seq<Event> {
    if log == [] then []
    else (if log[0].block > cursor then [log[0]] else []) + After(log[1..], cursor)
  }

  function Take<T>(s: seq<T>, n: nat): seq<T> {
    if |s| <= n then s else s[..n]
  }

  /** What `GET /v4/indexer/events?after_block_height=..&limit=..` answers for a given log. */
  function Page(log: seq<Event>, cursor: int, limit: nat): seq<Event> {
    Take(After(log, cursor), limit)
  }

  /** The first log position from `i` on whose event is above the cursor. */
  function FirstAbove(log: seq<Event>, cursor: int, i: nat): nat
    requires i <= |log|
    decreases |log| - i
  {
    if i == |log| || log[i].block > cursor then i else FirstAbove(log, cursor, i + 1)
  }

  function StartIndex(log: seq<Event>, cursor: int): nat {
    FirstAbove(log, cursor, 0)
  }

  lemma {:induction false} FirstAboveIsFirst(log: seq<Event>, cursor: int, i: nat)
    requires i <= |log|
    ensures i <= FirstAbove(log, cursor, i) <= |log|
    ensures forall k :: i <= k < FirstAbove(log, cursor, i) ==> log[k].block <= cursor
    ensures FirstAbove(log, cursor, i) < |log| ==> log[FirstAbove(log, cursor, i)].block > cursor
    decreases |log| - i
  {
    if i < |log| && log[i].block <= cursor {
      FirstAboveIsFirst(log, cursor, i + 1);
    }
  }

  /** On a block-ordered log the events above a cursor are a suffix. */
  lemma {:induction false} AfterIsSuffixFrom(log: seq<Event>, cursor: int, i: nat)
    requires BlockSorted(log) && i <= |log|
    ensures i <= FirstAbove(log, cursor, i) <= |log|
    ensures After(log[i..], cursor) == log[FirstAbove(log, cursor, i)..]
    decreases |log| - i
  {
    if i < |log| {
      assert log[i..][1..] == log[i + 1..];
      AfterIsSuffixFrom(log, cursor, i + 1);
      if log[i].block > cursor {
        FirstAboveIsFirst(log, cursor, i + 1);
        if i + 1 < |log| {
          assert log[i].block <= log[i + 1].block;
        }
        assert [log[i]] + log[i + 1..] == log[i..];
      }
    }
  }

  lemma {:induction false} AfterMembers(log: seq<Event>, cursor: int)
    ensures forall e :: e in After(log, cursor) <==> e in log && e.block > cursor
  {
    if log != [] {
      AfterMembers(log[1..], cursor);
      assert log == [log[0]] + log[1..];
    }
  }

  datatype RestCursor = RestCursor(done: bool, cursor: int, blockExceedsPage: bool)

  function MaxBlock(es: seq<Event>, start: int): int {
    if es == [] then start
    else MaxBlock(es[1..], if es[0].block > start then es[0].block else start)
  }

  function NextRestCursor(events: seq<Event>, current: int, limit: nat): RestCursor {
    if |events| < limit then RestCursor(true, current, false)
    else
      var maxBlock := MaxBlock(events, current);
      if maxBlock - 1 > current then RestCursor(false, maxBlock - 1, false)
      else RestCursor(false, maxBlock, true)
  }

  lemma {:induction false} MaxBlockIsMax(es: seq<Event>, start: int)
    ensures MaxBlock(es, start) >= start
    ensures forall i :: 0 <= i < |es| ==> es[i].block <= MaxBlock(es, start)
    ensures MaxBlock(es, start) == start || exists i :: 0 <= i < |es| && es[i].block == MaxBlock(es, start)
  {
    if es != [] {
      var next := if es[0].block > start then es[0].block else start;
      MaxBlockIsMax(es[1..], next);
      forall i | 0 <= i < |es| ensures es[i].block <= MaxBlock(es, start) {
        if i > 0 { assert es[i] == es[1..][i - 1]; }
      }
      if MaxBlock(es, start) != start {
        if MaxBlock(es[1..], next) == next {
          assert es[0].block == MaxBlock(es, start);
        } else {
          var i :| 0 <= i < |es[1..]| && es[1..][i].block == MaxBlock(es[1..], next);
          assert es[i + 1].block == MaxBlock(es, start);
        }
      }
    }
  }

  /**
   * A full page of events above the cursor moves the cursor strictly up, and never past a block the
   * page does not hold. It stops below the last block of the page, unless the page is one block.
   */
  lemma CursorProgress(events: seq<Event>, current: int, limit: nat)
    requires limit > 0 && |events| >= limit
    requires forall e :: e in events ==> e.block > current
    ensures var next := NextRestCursor(events, current, limit);
            && !next.done
            && current < next.cursor
            && (exists e :: e in events && next.cursor <= e.block)
            && (next.blockExceedsPage <==> forall e :: e in events ==> e.block == current + 1)
            && (if next.blockExceedsPage then next.cursor == current + 1
                else exists e :: e in events && e.block == next.cursor + 1
                                 && forall f :: f in events ==> f.block <= e.block)
  {
    MaxBlockIsMax(events, current);
    assert events[0] in events;
    var m := MaxBlock(events, current);
    assert m != current;
    var i :| 0 <= i < |events| && events[i].block == m;
    assert events[i] in events;
    forall f | f in events ensures f.block <= m {
      var k :| 0 <= k < |events| && events[k] == f;
    }
  }
}
