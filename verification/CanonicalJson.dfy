/**
 * The canonical text of a JSON value: object keys sorted by a comparison, at every level.
 *
 * Models `stableStringify` of packages/agent-sdk/src/utils/publishedDidRecord.ts. `localeCompare` is a
 * parameter: the sign of a comparison of two strings. Whether it tells every two strings apart
 * depends on the locale data of the platform, so what the text promises is stated for both cases.
 */
module CanonicalJson {
  import opened JsonText

  type Compare = (string, string) -> int

  predicate Opposite(cmp: Compare, a: string, b: string) {
    cmp(a, b) < 0 <==> cmp(b, a) > 0
  }

  predicate Transitive(cmp: Compare, a: string, b: string, c: string) {
    cmp(a, b) <= 0 && cmp(b, c) <= 0 ==> cmp(a, c) <= 0
  }

  /** A total preorder, which is what a stable sort needs. */
  ghost predicate Consistent(cmp: Compare) {
    && (forall a, b :: Opposite(cmp, a, b))
    && (forall a, b, c :: Transitive(cmp, a, b, c))
  }

  /** No two different keys compare equal. */
  ghost predicate Strict(cmp: Compare) {
    forall a, b :: cmp(a, b) == 0 ==> a == b
  }

  // ---------------------------------------------------------------- the stable sort of the entries

  /** Goes in behind every entry that does not compare greater. */
  function Insert<V(!new)>(cmp: Compare, e: Entry<V>, es: seq<Entry<V>>): (r: seq<Entry<V>>)
    ensures forall x :: x in r <==> x == e || x in es
    decreases |es|
  {
    if es == [] then [e]
    else
      var n := |es| - 1;
      assert es == es[..n] + [es[n]];
      if cmp(es[n].key, e.key) <= 0 then es + [e] else Insert(cmp, e, es[..n]) + [es[n]]
  }

  function Sort<V(!new)>(cmp: Compare, es: seq<Entry<V>>): (r: seq<Entry<V>>)
    ensures forall x :: x in r <==> x in es
    decreases |es|
  {
    if es == [] then []
    else
      var n := |es| - 1;
      assert es == es[..n] + [es[n]];
      Insert(cmp, es[n], Sort(cmp, es[..n]))
  }

  ghost predicate Sorted<V>(cmp: Compare, es: seq<Entry<V>>) {
    forall i, j :: 0 <= i < j < |es| ==> cmp(es[i].key, es[j].key) <= 0
  }

  ghost predicate NewKey<V>(key: string, es: seq<Entry<V>>) {
    forall i :: 0 <= i < |es| ==> es[i].key != key
  }

  lemma {:induction false} InsertKeepsSorted<V(!new)>(cmp: Compare, e: Entry<V>, es: seq<Entry<V>>)
    requires Consistent(cmp) && Sorted(cmp, es)
    ensures Sorted(cmp, Insert(cmp, e, es))
    decreases |es|
  {
    if es != [] {
      var n := |es| - 1;
      if cmp(es[n].key, e.key) > 0 {
        InsertKeepsSorted(cmp, e, es[..n]);
        var front := Insert(cmp, e, es[..n]);
        assert Opposite(cmp, e.key, es[n].key);
        forall i | 0 <= i < |front| ensures cmp(front[i].key, es[n].key) <= 0 {
          assert front[i] in front;
        }
      } else {
        forall i | 0 <= i < |es| ensures cmp(es[i].key, e.key) <= 0 {
          assert Transitive(cmp, es[i].key, es[n].key, e.key);
        }
      }
    }
  }

  lemma {:induction false} InsertKeepsDistinct<V(!new)>(cmp: Compare, e: Entry<V>, es: seq<Entry<V>>)
    requires NewKey(e.key, es) && DistinctKeys(es)
    ensures DistinctKeys(Insert(cmp, e, es))
    decreases |es|
  {
    if es != [] && cmp(es[|es| - 1].key, e.key) > 0 {
      var n := |es| - 1;
      InsertKeepsDistinct(cmp, e, es[..n]);
      var front := Insert(cmp, e, es[..n]);
      forall i | 0 <= i < |front| ensures front[i].key != es[n].key {
        assert front[i] in front;
      }
    }
  }

  lemma {:induction false} SortSorts<V(!new)>(cmp: Compare, es: seq<Entry<V>>)
    requires Consistent(cmp)
    ensures Sorted(cmp, Sort(cmp, es))
    decreases |es|
  {
    if es != [] {
      SortSorts(cmp, es[..|es| - 1]);
      InsertKeepsSorted(cmp, es[|es| - 1], Sort(cmp, es[..|es| - 1]));
    }
  }

  lemma {:induction false} SortKeepsDistinct<V(!new)>(cmp: Compare, es: seq<Entry<V>>)
    requires DistinctKeys(es)
    ensures DistinctKeys(Sort(cmp, es))
    decreases |es|
  {
    if es != [] {
      var n := |es| - 1;
      SortKeepsDistinct(cmp, es[..n]);
      var front := Sort(cmp, es[..n]);
      forall i | 0 <= i < |front| ensures front[i].key != es[n].key {
        assert front[i] in front;
      }
      InsertKeepsDistinct(cmp, es[n], front);
    }
  }

  lemma SameLast<V(!new)>(cmp: Compare, a: seq<Entry<V>>, b: seq<Entry<V>>)
    requires Consistent(cmp) && Strict(cmp) && a != [] && b != []
    requires Sorted(cmp, a) && Sorted(cmp, b) && DistinctKeys(a) && SameMembers(a, b)
    ensures a[|a| - 1] == b[|b| - 1]
  {
    var m, n := |a| - 1, |b| - 1;
    assert Agree(a, b, a[m]) && Agree(a, b, b[n]);
    var i :| 0 <= i < |a| && a[i] == b[n];
    var j :| 0 <= j < |b| && b[j] == a[m];
    assert Opposite(cmp, a[m].key, b[n].key);
    assert i < m ==> cmp(a[i].key, a[m].key) <= 0;
    assert j < n ==> cmp(b[j].key, b[n].key) <= 0;
  }

  ghost predicate Agree<V>(a: seq<Entry<V>>, b: seq<Entry<V>>, x: Entry<V>) {
    x in a <==> x in b
  }

  ghost predicate SameMembers<V(!new)>(a: seq<Entry<V>>, b: seq<Entry<V>>) {
    forall x :: Agree(a, b, x)
  }

  lemma EmptyTogether<V(!new)>(a: seq<Entry<V>>, b: seq<Entry<V>>)
    requires SameMembers(a, b)
    ensures a == [] <==> b == []
  {
    if a != [] {
      assert Agree(a, b, a[0]);
    }
    if b != [] {
      assert Agree(a, b, b[0]);
    }
  }

  lemma FrontMembers<V(!new)>(a: seq<Entry<V>>, x: Entry<V>)
    requires a != [] && DistinctKeys(a)
    ensures x in a[..|a| - 1] <==> x in a && x != a[|a| - 1]
  {
    assert a == a[..|a| - 1] + [a[|a| - 1]];
  }

  lemma FrontsAgree<V(!new)>(a: seq<Entry<V>>, b: seq<Entry<V>>)
    requires a != [] && b != [] && DistinctKeys(a) && DistinctKeys(b)
    requires SameMembers(a, b) && a[|a| - 1] == b[|b| - 1]
    ensures SameMembers(a[..|a| - 1], b[..|b| - 1])
  {
    var p, q := a[..|a| - 1], b[..|b| - 1];
    forall x ensures Agree(p, q, x) {
      assert Agree(a, b, x);
      FrontMembers(a, x);
      FrontMembers(b, x);
    }
  }

  /** With a strict comparison, a sorted list is the only one with its entries. */
  lemma {:induction false} SortedIsUnique<V(!new)>(cmp: Compare, a: seq<Entry<V>>, b: seq<Entry<V>>)
    requires Consistent(cmp) && Strict(cmp)
    requires Sorted(cmp, a) && Sorted(cmp, b) && DistinctKeys(a) && DistinctKeys(b) && SameMembers(a, b)
    ensures a == b
    decreases |a|
  {
    EmptyTogether(a, b);
    if a != [] {
      SameLast(cmp, a, b);
      FrontsAgree(a, b);
      SortedIsUnique(cmp, a[..|a| - 1], b[..|b| - 1]);
      assert a == a[..|a| - 1] + [a[|a| - 1]] && b == b[..|b| - 1] + [b[|b| - 1]];
    }
  }

  lemma SortedStays<V(!new)>(cmp: Compare, es: seq<Entry<V>>)
    requires Consistent(cmp) && Strict(cmp) && Sorted(cmp, es) && DistinctKeys(es)
    ensures Sort(cmp, es) == es
  {
    SortSorts(cmp, es);
    SortKeepsDistinct(cmp, es);
    assert forall x :: Agree(Sort(cmp, es), es, x);
    SortedIsUnique(cmp, Sort(cmp, es), es);
  }

  // ---------------------------------------------------------------- the serialiser

  function Join(parts: seq<string>): string {
    if parts == [] then ""
    else if |parts| == 1 then parts[0]
    else parts[0] + "," + Join(parts[1..])
  }

  function StableStringify(cmp: Compare, v: Json): string {
    match v
    case Arr(items) =>
      "[" + Join(seq(|items|, i requires 0 <= i < |items| => StableStringify(cmp, items[i]))) + "]"
    case Obj(entries) =>
      var sorted := Sort(cmp, entries);
      "{" + Join(seq(|sorted|, i requires 0 <= i < |sorted| =>
                   assert sorted[i] in entries;
                   Quote(sorted[i].key) + ":" + StableStringify(cmp, sorted[i].value))) + "}"
    case _ => Render(v)
  }

  /** The value with the keys of every object sorted. */
  function Canon(cmp: Compare, v: Json): Json {
    match v
    case Arr(items) => Arr(seq(|items|, i requires 0 <= i < |items| => Canon(cmp, items[i])))
    case Obj(entries) =>
      var sorted := Sort(cmp, entries);
      Obj(seq(|sorted|, i requires 0 <= i < |sorted| =>
            assert sorted[i] in entries; Entry(sorted[i].key, Canon(cmp, sorted[i].value))))
    case _ => v
  }

  // ---------------------------------------------------------------- equality up to key order

  ghost predicate HasKey<V>(es: seq<Entry<V>>, key: string) {
    exists j :: 0 <= j < |es| && es[j].key == key
  }

  ghost function IndexOf<V>(es: seq<Entry<V>>, key: string): (j: nat)
    requires HasKey(es, key)
    ensures j < |es| && es[j].key == key
  {
    var j :| 0 <= j < |es| && es[j].key == key;
    j
  }

  /** Every key of `a` is a key of `b`. */
  ghost predicate KeysIn<V>(a: seq<Entry<V>>, b: seq<Entry<V>>) {
    forall i :: 0 <= i < |a| ==> HasKey(b, a[i].key)
  }

  /** The same value, read as JSON: arrays in order, objects by key. */
  ghost predicate Same(v: Json, w: Json) {
    match v
    case Arr(items) =>
      && w.Arr? && |w.items| == |items|
      && forall i :: 0 <= i < |items| ==> Same(items[i], w.items[i])
    case Obj(entries) =>
      && w.Obj? && KeysIn(entries, w.entries) && KeysIn(w.entries, entries)
      && forall i :: 0 <= i < |entries| ==>
           Same(entries[i].value, w.entries[IndexOf(w.entries, entries[i].key)].value)
    case _ => v == w
  }

  // ---------------------------------------------------------------- sorting keeps the value

  lemma {:induction false} CanonIsValid(cmp: Compare, v: Json)
    requires Valid(v)
    ensures Valid(Canon(cmp, v))
    decreases v
  {
    match v
    case Arr(items) =>
      forall i | 0 <= i < |items| ensures Valid(Canon(cmp, items[i])) {
        CanonIsValid(cmp, items[i]);
      }
    case Obj(entries) =>
      var sorted := Sort(cmp, entries);
      SortKeepsDistinct(cmp, entries);
      forall i | 0 <= i < |sorted| ensures Valid(Canon(cmp, sorted[i].value)) {
        assert sorted[i] in entries;
        CanonIsValid(cmp, sorted[i].value);
      }
    case _ =>
  }

  lemma CanonKeys(cmp: Compare, entries: seq<Entry<Json>>)
    ensures KeysIn(entries, Canon(cmp, Obj(entries)).entries) && KeysIn(Canon(cmp, Obj(entries)).entries, entries)
  {
    var sorted, canon := Sort(cmp, entries), Canon(cmp, Obj(entries)).entries;
    forall i | 0 <= i < |entries| ensures HasKey(canon, entries[i].key) {
      assert entries[i] in sorted;
      var j :| 0 <= j < |sorted| && sorted[j] == entries[i];
      assert canon[j].key == entries[i].key;
    }
    forall j | 0 <= j < |canon| ensures HasKey(entries, canon[j].key) {
      assert sorted[j] in entries;
    }
  }

  lemma {:induction false} CanonIsSame(cmp: Compare, v: Json)
    requires Valid(v)
    ensures Same(v, Canon(cmp, v))
    decreases v
  {
    match v
    case Arr(items) =>
      forall i | 0 <= i < |items| ensures Same(items[i], Canon(cmp, items[i])) {
        CanonIsSame(cmp, items[i]);
      }
    case Obj(entries) =>
      var sorted, canon := Sort(cmp, entries), Canon(cmp, v).entries;
      CanonKeys(cmp, entries);
      forall i | 0 <= i < |entries|
        ensures Same(entries[i].value, canon[IndexOf(canon, entries[i].key)].value)
      {
        var j := IndexOf(canon, entries[i].key);
        assert sorted[j] in entries;
        assert sorted[j] == entries[i];
        CanonIsSame(cmp, entries[i].value);
      }
    case _ =>
  }

  /** Two values that are the same as a third one are the same. */
  lemma {:induction false} SameJoins(v: Json, w: Json, c: Json)
    requires Same(v, c) && Same(w, c)
    ensures Same(v, w)
    decreases v
  {
    match v
    case Arr(items) =>
      forall i | 0 <= i < |items| ensures Same(items[i], w.items[i]) {
        SameJoins(items[i], w.items[i], c.items[i]);
      }
    case Obj(entries) =>
      KeysChain(entries, c.entries, w.entries);
      KeysChain(w.entries, c.entries, entries);
      forall i | 0 <= i < |entries|
        ensures Same(entries[i].value, w.entries[IndexOf(w.entries, entries[i].key)].value)
      {
        var j, k := IndexOf(w.entries, entries[i].key), IndexOf(c.entries, entries[i].key);
        assert IndexOf(c.entries, w.entries[j].key) == k;
        SameJoins(entries[i].value, w.entries[j].value, c.entries[k].value);
      }
    case _ =>
  }

  lemma KeysChain<V>(a: seq<Entry<V>>, b: seq<Entry<V>>, c: seq<Entry<V>>)
    requires KeysIn(a, b) && KeysIn(b, c)
    ensures KeysIn(a, c)
  {
    forall i | 0 <= i < |a| ensures HasKey(c, a[i].key) {
      var j := IndexOf(b, a[i].key);
      assert HasKey(c, b[j].key);
    }
  }

  /** With a strict comparison, sorting leaves nothing of the key order. */
  lemma {:induction false} SameCanon(cmp: Compare, v: Json, w: Json)
    requires Consistent(cmp) && Strict(cmp) && Valid(v) && Valid(w) && Same(v, w)
    ensures Canon(cmp, v) == Canon(cmp, w)
    decreases v
  {
    match v
    case Arr(items) =>
      forall i | 0 <= i < |items| ensures Canon(cmp, items[i]) == Canon(cmp, w.items[i]) {
        SameCanon(cmp, items[i], w.items[i]);
      }
      assert Canon(cmp, v).items == Canon(cmp, w).items;
    case Obj(entries) =>
      var a, b := Canon(cmp, v).entries, Canon(cmp, w).entries;
      CanonIsSorted(cmp, entries);
      CanonIsSorted(cmp, w.entries);
      forall i | 0 <= i < |entries|
        ensures Canon(cmp, entries[i].value) == Canon(cmp, w.entries[IndexOf(w.entries, entries[i].key)].value)
      {
        SameCanon(cmp, entries[i].value, w.entries[IndexOf(w.entries, entries[i].key)].value);
      }
      forall j | 0 <= j < |w.entries|
        ensures Canon(cmp, w.entries[j].value) == Canon(cmp, entries[IndexOf(entries, w.entries[j].key)].value)
      {
        var i := IndexOf(entries, w.entries[j].key);
        assert IndexOf(w.entries, entries[i].key) == j;
      }
      CanonMembersIn(cmp, entries, w.entries);
      CanonMembersIn(cmp, w.entries, entries);
      SortedIsUnique(cmp, a, b);
    case _ =>
  }

  lemma CanonIsSorted(cmp: Compare, entries: seq<Entry<Json>>)
    requires Consistent(cmp) && DistinctKeys(entries)
    ensures Sorted(cmp, Canon(cmp, Obj(entries)).entries) && DistinctKeys(Canon(cmp, Obj(entries)).entries)
  {
    SortSorts(cmp, entries);
    SortKeepsDistinct(cmp, entries);
  }

  lemma CanonMembersIn(cmp: Compare, a: seq<Entry<Json>>, b: seq<Entry<Json>>)
    requires KeysIn(a, b)
    requires forall i :: 0 <= i < |a| ==> Canon(cmp, a[i].value) == Canon(cmp, b[IndexOf(b, a[i].key)].value)
    ensures forall x :: x in Canon(cmp, Obj(a)).entries ==> x in Canon(cmp, Obj(b)).entries
  {
    var s, t := Sort(cmp, a), Sort(cmp, b);
    forall x | x in Canon(cmp, Obj(a)).entries ensures x in Canon(cmp, Obj(b)).entries {
      var k :| 0 <= k < |s| && Canon(cmp, Obj(a)).entries[k] == x;
      assert s[k] in a;
      var i :| 0 <= i < |a| && a[i] == s[k];
      var j := IndexOf(b, a[i].key);
      assert b[j] in t;
      var l :| 0 <= l < |t| && t[l] == b[j];
      assert Canon(cmp, Obj(b)).entries[l] == x;
    }
  }

  // ---------------------------------------------------------------- the text

  lemma {:induction false} JoinItems(items: seq<Json>, parts: seq<string>)
    requires |parts| == |items| && forall i :: 0 <= i < |items| ==> parts[i] == Render(items[i])
    ensures Join(parts) == RenderItems(items)
  {
    if |items| > 1 {
      JoinItems(items[1..], parts[1..]);
    }
  }

  lemma {:induction false} JoinEntries(entries: seq<Entry<Json>>, parts: seq<string>)
    requires |parts| == |entries|
    requires forall i :: 0 <= i < |entries| ==> parts[i] == Quote(entries[i].key) + ":" + Render(entries[i].value)
    ensures Join(parts) == RenderEntries(entries)
  {
    if |entries| > 1 {
      JoinEntries(entries[1..], parts[1..]);
    }
  }

  /** The text is the plain text of the value with sorted keys. */
  lemma {:induction false} StableTextOfCanon(cmp: Compare, v: Json)
    ensures StableStringify(cmp, v) == Render(Canon(cmp, v))
    decreases v
  {
    match v
    case Arr(items) =>
      var parts := seq(|items|, i requires 0 <= i < |items| => StableStringify(cmp, items[i]));
      forall i | 0 <= i < |items| ensures parts[i] == Render(Canon(cmp, v).items[i]) {
        StableTextOfCanon(cmp, items[i]);
      }
      JoinItems(Canon(cmp, v).items, parts);
    case Obj(entries) =>
      var sorted := Sort(cmp, entries);
      var parts := seq(|sorted|, i requires 0 <= i < |sorted| =>
        assert sorted[i] in entries;
        Quote(sorted[i].key) + ":" + StableStringify(cmp, sorted[i].value));
      forall i | 0 <= i < |sorted|
        ensures parts[i] == Quote(sorted[i].key) + ":" + Render(Canon(cmp, sorted[i].value))
      {
        assert sorted[i] in entries;
        StableTextOfCanon(cmp, sorted[i].value);
      }
      JoinEntries(Canon(cmp, v).entries, parts);
    case _ =>
  }

  /** Main result, first half: whatever the comparison, the text determines the value up to key order. */
  lemma StableTextDetermines(cmp: Compare, v: Json, w: Json)
    requires Valid(v) && Valid(w) && StableStringify(cmp, v) == StableStringify(cmp, w)
    ensures Same(v, w)
  {
    StableTextOfCanon(cmp, v);
    StableTextOfCanon(cmp, w);
    CanonIsValid(cmp, v);
    CanonIsValid(cmp, w);
    RenderIsInjective(Canon(cmp, v), Canon(cmp, w));
    CanonIsSame(cmp, v);
    CanonIsSame(cmp, w);
    SameJoins(v, w, Canon(cmp, v));
  }

  /** With a strict comparison the text says exactly that: equal texts are equal values up to key order. */
  lemma StableTextIffSame(cmp: Compare, v: Json, w: Json)
    requires Consistent(cmp) && Strict(cmp) && Valid(v) && Valid(w)
    ensures StableStringify(cmp, v) == StableStringify(cmp, w) <==> Same(v, w)
  {
    StableTextOfCanon(cmp, v);
    StableTextOfCanon(cmp, w);
    if Same(v, w) {
      SameCanon(cmp, v, w);
    } else if StableStringify(cmp, v) == StableStringify(cmp, w) {
      StableTextDetermines(cmp, v, w);
    }
  }

  /** Every two values that are equal up to key order have one text. */
  ghost predicate OrderFree(cmp: Compare) {
    forall v, w :: Valid(v) && Valid(w) && Same(v, w) ==> StableStringify(cmp, v) == StableStringify(cmp, w)
  }

  lemma TiedPairStays<V(!new)>(cmp: Compare, x: Entry<V>, y: Entry<V>)
    requires Consistent(cmp) && (cmp(x.key, y.key) == 0 || cmp(y.key, x.key) == 0)
    ensures Sort(cmp, [x, y]) == [x, y]
  {
    assert Opposite(cmp, x.key, y.key) && Opposite(cmp, y.key, x.key);
    assert [x, y][..1] == [x] && [x][..0] == [];
    assert Sort(cmp, [x]) == [x];
  }

  function Pair(first: string, second: string): Json {
    Obj([Entry(first, Null), Entry(second, Null)])
  }

  lemma PairsAreSame(a: string, b: string)
    requires a != b
    ensures Valid(Pair(a, b)) && Same(Pair(a, b), Pair(b, a))
  {
    var v, w := Pair(a, b), Pair(b, a);
    assert HasKey(w.entries, a) && HasKey(w.entries, b) && HasKey(v.entries, a) && HasKey(v.entries, b) by {
      assert v.entries[0].key == a == w.entries[1].key && v.entries[1].key == b == w.entries[0].key;
    }
  }

  /** Two keys that compare equal stay in the order in which the object lists them. */
  lemma TiedKeysKeepTheirOrder(cmp: Compare, a: string, b: string)
    requires Consistent(cmp) && a != b && cmp(a, b) == 0
    ensures StableStringify(cmp, Pair(a, b)) != StableStringify(cmp, Pair(b, a))
  {
    var v, w := Pair(a, b), Pair(b, a);
    var x, y: Entry<Json> := Entry(a, Null), Entry(b, Null);
    TiedPairStays(cmp, x, y);
    TiedPairStays(cmp, y, x);
    assert Canon(cmp, v).entries[0].key == a && Canon(cmp, w).entries[0].key == b;
    StableTextOfCanon(cmp, v);
    StableTextOfCanon(cmp, w);
    CanonIsValid(cmp, v);
    CanonIsValid(cmp, w);
    if StableStringify(cmp, v) == StableStringify(cmp, w) {
      RenderIsInjective(Canon(cmp, v), Canon(cmp, w));
    }
  }

  /**
   * Main result, second half: the text is free of key order exactly when the comparison tells every two
   * keys apart.
   */
  lemma OrderFreeIffStrict(cmp: Compare)
    requires Consistent(cmp)
    ensures OrderFree(cmp) <==> Strict(cmp)
  {
    if !Strict(cmp) {
      var a, b :| cmp(a, b) == 0 && a != b;
      PairsAreSame(a, b);
      PairsAreSame(b, a);
      TiedKeysKeepTheirOrder(cmp, a, b);
    } else {
      forall v, w | Valid(v) && Valid(w) && Same(v, w)
        ensures StableStringify(cmp, v) == StableStringify(cmp, w)
      {
        StableTextIffSame(cmp, v, w);
      }
    }
  }
}
