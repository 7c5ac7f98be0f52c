/**
 * The deep sort of object keys that precedes the digest of a credential.
 *
 * Models `sortKeysDeep` of packages/agent-sdk/src/utils/setupSelfTr.ts on JavaScript objects: an object
 * enumerates its integer keys first, in ascending order, whatever the order of insertion, and an
 * assignment to the key `__proto__` adds no property. Characters compare as Unicode scalar values.
 */
module SortKeys {
  import opened JsonText
  import opened CanonicalJson
  import opened Strings

  const PROTO := "__proto__"

  /** The integer keys are the canonical numerals below this number. */
  const INDEX_LIMIT := 4294967295

  function DigitValue(c: char): nat {
    if '0' <= c <= '9' then c as int - '0' as int else 0
  }

  function ValueOf(key: string): nat {
    if key == "" then 0 else ValueOf(key[..|key| - 1]) * 10 + DigitValue(key[|key| - 1])
  }

  predicate IsIndex(key: string) {
    key == Decimal(ValueOf(key)) && ValueOf(key) < INDEX_LIMIT
  }

  /** The comparison of `Array.prototype.sort` without an argument. */
  function Lexical(a: string, b: string): int {
    if a == b then 0 else if Before(a, b) then -1 else 1
  }

  /** The order in which an object enumerates keys that were inserted in lexical order. */
  function Enumeration(a: string, b: string): int {
    if IsIndex(a) && IsIndex(b) then ValueOf(a) - ValueOf(b)
    else if IsIndex(a) then -1
    else if IsIndex(b) then 1
    else Lexical(a, b)
  }

  /** `acc[key] = value` for a new key. */
  function Put(acc: seq<Entry<Json>>, e: Entry<Json>): seq<Entry<Json>> {
    if e.key == PROTO then acc
    else if IsIndex(e.key) then Insert(Enumeration, e, acc)
    else acc + [e]
  }

  /** The fold over the sorted keys. */
  function PutAll(es: seq<Entry<Json>>): seq<Entry<Json>> {
    if es == [] then [] else Put(PutAll(es[..|es| - 1]), es[|es| - 1])
  }

  function SortKeysDeep(v: Json): Json {
    match v
    case Arr(items) => Arr(seq(|items|, i requires 0 <= i < |items| => SortKeysDeep(items[i])))
    case Obj(entries) =>
      var keys := Sort(Lexical, entries);
      Obj(PutAll(seq(|keys|, i requires 0 <= i < |keys| =>
                   assert keys[i] in entries; Entry(keys[i].key, SortKeysDeep(keys[i].value)))))
    case _ => v
  }

  // ---------------------------------------------------------------- the two orders

  lemma LexicalIsStrict()
    ensures Consistent(Lexical) && Strict(Lexical)
  {
    forall a, b ensures Opposite(Lexical, a, b) {
      BeforeIsTotal(a, b);
      BeforeIsTotal(b, a);
    }
    forall a, b, c ensures Transitive(Lexical, a, b, c) {
      if a != b && b != c && Before(a, b) && Before(b, c) {
        BeforeIsTransitive(a, b, c);
      }
    }
  }

  lemma EnumerationIsStrict()
    ensures Consistent(Enumeration) && Strict(Enumeration)
  {
    LexicalIsStrict();
    forall a, b ensures Opposite(Enumeration, a, b) {
      assert Opposite(Lexical, a, b);
    }
    forall a, b, c ensures Transitive(Enumeration, a, b, c) {
      assert Transitive(Lexical, a, b, c);
    }
    forall a, b | Enumeration(a, b) == 0 ensures a == b {
      assert Lexical(a, b) == 0 || (IsIndex(a) && IsIndex(b) && Decimal(ValueOf(a)) == Decimal(ValueOf(b)));
    }
  }

  // ---------------------------------------------------------------- the fold sorts

  /** The entries that become properties. */
  function Kept(es: seq<Entry<Json>>): (r: seq<Entry<Json>>)
    ensures forall x :: x in r <==> x in es && x.key != PROTO
  {
    if es == [] then []
    else
      var front, last := es[..|es| - 1], es[|es| - 1];
      assert es == front + [last];
      if last.key == PROTO then Kept(front) else Kept(front) + [last]
  }

  /** A key that is not below those of `acc` goes where the order of enumeration wants it. */
  lemma PutInserts(acc: seq<Entry<Json>>, e: Entry<Json>)
    requires e.key != PROTO && (acc != [] ==> Lexical(acc[|acc| - 1].key, e.key) <= 0)
    ensures Put(acc, e) == Insert(Enumeration, e, acc)
  {
  }

  lemma SortOfAppend(cmp: Compare, es: seq<Entry<Json>>, e: Entry<Json>)
    ensures Sort(cmp, es + [e]) == Insert(cmp, e, Sort(cmp, es))
  {
    assert (es + [e])[..|es + [e]| - 1] == es;
  }

  /** Inserted in lexical order, the properties end up in the order of enumeration. */
  lemma {:induction false} PutAllSorts(es: seq<Entry<Json>>)
    requires Sorted(Lexical, es)
    ensures PutAll(es) == Sort(Enumeration, Kept(es))
    decreases |es|
  {
    if es != [] {
      var front, e := es[..|es| - 1], es[|es| - 1];
      PutAllSorts(front);
      if e.key != PROTO {
        SortOfAppend(Enumeration, Kept(front), e);
        var acc := PutAll(front);
        if acc != [] {
          var last := acc[|acc| - 1];
          assert last in acc && last in front;
          var i :| 0 <= i < |front| && front[i] == last;
          assert es[i] == last;
        }
        PutInserts(acc, e);
      }
    }
  }

  // ---------------------------------------------------------------- what the result is

  /** No object anywhere in the value has the key `__proto__`. */
  predicate NoProto(v: Json) {
    match v
    case Arr(items) => forall i :: 0 <= i < |items| ==> NoProto(items[i])
    case Obj(entries) => forall i :: 0 <= i < |entries| ==> entries[i].key != PROTO && NoProto(entries[i].value)
    case _ => true
  }

  ghost predicate SortedEntryOf(entries: seq<Entry<Json>>, x: Entry<Json>) {
    exists i :: 0 <= i < |entries| && x == Entry(entries[i].key, SortKeysDeep(entries[i].value))
  }

  /** The list that the fold runs over. */
  function SortedEntries(entries: seq<Entry<Json>>): seq<Entry<Json>> {
    var keys := Sort(Lexical, entries);
    seq(|keys|, i requires 0 <= i < |keys| => Entry(keys[i].key, SortKeysDeep(keys[i].value)))
  }

  lemma SortedEntriesAreSorted(entries: seq<Entry<Json>>)
    requires DistinctKeys(entries)
    ensures Sorted(Lexical, SortedEntries(entries)) && DistinctKeys(SortedEntries(entries))
  {
    LexicalIsStrict();
    SortSorts(Lexical, entries);
    SortKeepsDistinct(Lexical, entries);
  }

  lemma FoldedEntries(entries: seq<Entry<Json>>)
    requires DistinctKeys(entries)
    ensures SortKeysDeep(Obj(entries)).entries == Sort(Enumeration, Kept(SortedEntries(entries)))
    ensures DistinctKeys(SortedEntries(entries))
  {
    var keys, es := Sort(Lexical, entries), SortedEntries(entries);
    SortedEntriesAreSorted(entries);
    PutAllSorts(es);
    assert SortKeysDeep(Obj(entries)).entries == PutAll(es) by {
      assert es == seq(|keys|, i requires 0 <= i < |keys| =>
        assert keys[i] in entries; Entry(keys[i].key, SortKeysDeep(keys[i].value)));
    }
  }

  lemma SortedEntryMembers(entries: seq<Entry<Json>>, x: Entry<Json>)
    ensures x in SortedEntries(entries) <==> SortedEntryOf(entries, x)
  {
    var keys, es := Sort(Lexical, entries), SortedEntries(entries);
    if x in es {
      var i :| 0 <= i < |es| && es[i] == x;
      assert keys[i] in entries;
    }
    if SortedEntryOf(entries, x) {
      var i :| 0 <= i < |entries| && x == Entry(entries[i].key, SortKeysDeep(entries[i].value));
      assert entries[i] in keys;
      var k :| 0 <= k < |keys| && keys[k] == entries[i];
      assert es[k] == x;
    }
  }

  /** The properties of a sorted object: every entry but `__proto__`, with its value sorted, in enumeration order. */
  lemma SortedObject(entries: seq<Entry<Json>>)
    requires DistinctKeys(entries)
    ensures var r := SortKeysDeep(Obj(entries)).entries;
            && Sorted(Enumeration, r) && DistinctKeys(r)
            && forall x :: x in r <==> SortedEntryOf(entries, x) && x.key != PROTO
  {
    var es := SortedEntries(entries);
    FoldedEntries(entries);
    EnumerationIsStrict();
    KeptIsDistinct(es);
    SortSorts(Enumeration, Kept(es));
    SortKeepsDistinct(Enumeration, Kept(es));
    forall x ensures x in es <==> SortedEntryOf(entries, x) {
      SortedEntryMembers(entries, x);
    }
  }

  lemma {:induction false} KeptIsDistinct(es: seq<Entry<Json>>)
    requires DistinctKeys(es)
    ensures DistinctKeys(Kept(es))
    decreases |es|
  {
    if es != [] {
      var front := es[..|es| - 1];
      KeptIsDistinct(front);
      forall i | 0 <= i < |Kept(front)| ensures Kept(front)[i].key != es[|es| - 1].key {
        assert Kept(front)[i] in Kept(front);
        assert Kept(front)[i] in front;
      }
    }
  }

  /** The entry of a key in a sorted object. */
  lemma SortedEntry(entries: seq<Entry<Json>>, i: nat)
    requires DistinctKeys(entries) && i < |entries|
    ensures var r := SortKeysDeep(Obj(entries)).entries;
            && (HasKey(r, entries[i].key) <==> entries[i].key != PROTO)
            && (HasKey(r, entries[i].key) ==> r[IndexOf(r, entries[i].key)].value == SortKeysDeep(entries[i].value))
  {
    var r := SortKeysDeep(Obj(entries)).entries;
    SortedObject(entries);
    var x := Entry(entries[i].key, SortKeysDeep(entries[i].value));
    assert SortedEntryOf(entries, x);
    if x.key != PROTO {
      assert x in r;
      var j :| 0 <= j < |r| && r[j] == x;
      assert r[j].key == x.key;
    }
    forall j | 0 <= j < |r| && r[j].key == x.key ensures r[j] == x && x.key != PROTO {
      assert r[j] in r;
      var k :| 0 <= k < |entries| && r[j] == Entry(entries[k].key, SortKeysDeep(entries[k].value));
      assert k == i;
    }
  }

  lemma SortedKeyIsOld(entries: seq<Entry<Json>>, j: nat) returns (i: nat)
    requires DistinctKeys(entries) && j < |SortKeysDeep(Obj(entries)).entries|
    ensures i < |entries| && entries[i].key != PROTO
    ensures SortKeysDeep(Obj(entries)).entries[j] == Entry(entries[i].key, SortKeysDeep(entries[i].value))
  {
    var r := SortKeysDeep(Obj(entries)).entries;
    SortedObject(entries);
    assert r[j] in r;
    i :| 0 <= i < |entries| && r[j] == Entry(entries[i].key, SortKeysDeep(entries[i].value));
  }

  /** A sorted value is valid, has no `__proto__` left, and is sorted at every level. */
  lemma {:induction false} SortedIsCanonical(v: Json)
    requires Valid(v)
    ensures Valid(SortKeysDeep(v)) && NoProto(SortKeysDeep(v))
    ensures Canon(Enumeration, SortKeysDeep(v)) == SortKeysDeep(v)
    decreases v
  {
    match v
    case Arr(items) =>
      forall i | 0 <= i < |items|
        ensures Valid(SortKeysDeep(items[i])) && NoProto(SortKeysDeep(items[i]))
        ensures Canon(Enumeration, SortKeysDeep(items[i])) == SortKeysDeep(items[i])
      {
        SortedIsCanonical(items[i]);
      }
      assert Canon(Enumeration, SortKeysDeep(v)).items == SortKeysDeep(v).items;
    case Obj(entries) =>
      var r := SortKeysDeep(v).entries;
      SortedObject(entries);
      EnumerationIsStrict();
      SortedStays(Enumeration, r);
      forall j | 0 <= j < |r|
        ensures r[j].key != PROTO && Valid(r[j].value) && NoProto(r[j].value)
        ensures Canon(Enumeration, r[j].value) == r[j].value
      {
        var i := SortedKeyIsOld(entries, j);
        SortedIsCanonical(entries[i].value);
      }
      assert Canon(Enumeration, SortKeysDeep(v)).entries == r;
    case _ =>
  }

  /** The sort keeps the value exactly when no object in it has the key `__proto__`. */
  lemma {:induction false} SortKeepsValueIff(v: Json)
    requires Valid(v)
    ensures Same(v, SortKeysDeep(v)) <==> NoProto(v)
    decreases v
  {
    match v
    case Arr(items) =>
      forall i | 0 <= i < |items| ensures Same(items[i], SortKeysDeep(items[i])) <==> NoProto(items[i]) {
        SortKeepsValueIff(items[i]);
      }
    case Obj(entries) =>
      var r := SortKeysDeep(v).entries;
      forall j | 0 <= j < |r| ensures HasKey(entries, r[j].key) {
        var i := SortedKeyIsOld(entries, j);
        assert entries[i].key == r[j].key;
      }
      forall i | 0 <= i < |entries|
        ensures HasKey(r, entries[i].key) <==> entries[i].key != PROTO
        ensures HasKey(r, entries[i].key) ==>
                  (Same(entries[i].value, r[IndexOf(r, entries[i].key)].value) <==> NoProto(entries[i].value))
      {
        SortedEntry(entries, i);
        SortKeepsValueIff(entries[i].value);
      }
    case _ =>
  }

  // ---------------------------------------------------------------- the claims

  /** Without `__proto__` the sort is the canonical form under the order of enumeration. */
  lemma SortIsCanon(v: Json)
    requires Valid(v) && NoProto(v)
    ensures SortKeysDeep(v) == Canon(Enumeration, v)
  {
    SortKeepsValueIff(v);
    SortedIsCanonical(v);
    EnumerationIsStrict();
    SameCanon(Enumeration, v, SortKeysDeep(v));
  }

  /** Sorting twice is sorting once. */
  lemma SortIsIdempotent(v: Json)
    requires Valid(v)
    ensures SortKeysDeep(SortKeysDeep(v)) == SortKeysDeep(v)
  {
    SortedIsCanonical(v);
    SortIsCanon(SortKeysDeep(v));
  }

  /**
   * Main result. The text that is hashed tells values apart exactly up to key order, for all values
   * without the key `__proto__`.
   */
  lemma SortedTextIffSame(v: Json, w: Json)
    requires Valid(v) && Valid(w) && NoProto(v) && NoProto(w)
    ensures Render(SortKeysDeep(v)) == Render(SortKeysDeep(w)) <==> Same(v, w)
    ensures SortKeysDeep(v) == SortKeysDeep(w) <==> Same(v, w)
  {
    SortIsCanon(v);
    SortIsCanon(w);
    StableTextOfCanon(Enumeration, v);
    StableTextOfCanon(Enumeration, w);
    EnumerationIsStrict();
    StableTextIffSame(Enumeration, v, w);
    if Same(v, w) {
      SameCanon(Enumeration, v, w);
    }
  }
}
