/**
 * The fingerprints by which the agent notices that its published material changed.
 *
 * Models `documentFingerprint` and `publicationFingerprint` of
 * packages/agent-sdk/src/utils/publishedDidRecord.ts. A member that JavaScript leaves undefined is
 * `None`; JSON does not show it.
 */
module Fingerprints {
  import opened Options
  import opened JsonText
  import opened CanonicalJson

  const LINKED_VP := "LinkedVerifiablePresentation"

  datatype Service = Service(id: string, kind: string, endpoint: Option<Json>)

  /** The document as JSON and its services; the entries of the `_vt/vtc` and `_vt/jsc` metadata. */
  datatype DidRecord = DidRecord(document: Option<Json>, services: seq<Service>,
                                 vtc: seq<Entry<Option<Json>>>, jsc: seq<Entry<Option<Json>>>)

  /** An id and a member that may be missing, as a JSON object. */
  function AsObject(idName: string, valueName: string, e: Entry<Option<Json>>): Json {
    if e.value.None? then Obj([Entry(idName, Str(e.key))])
    else Obj([Entry(idName, Str(e.key)), Entry(valueName, e.value.value)])
  }

  function AsArray(idName: string, valueName: string, es: seq<Entry<Option<Json>>>): Json {
    Arr(seq(|es|, i requires 0 <= i < |es| => AsObject(idName, valueName, es[i])))
  }

  function LinkedServices(services: seq<Service>): seq<Entry<Option<Json>>> {
    if services == [] then []
    else
      var rest := LinkedServices(services[1..]);
      if services[0].kind == LINKED_VP then [Entry(services[0].id, services[0].endpoint)] + rest else rest
  }

  function PublicationValue(cmp: Compare, r: DidRecord): Json {
    Obj([Entry("services", AsArray("id", "serviceEndpoint", Sort(cmp, LinkedServices(r.services)))),
         Entry("presentations", Arr([AsArray("schemaId", "presentation", Sort(cmp, r.vtc)),
                                     AsArray("schemaId", "presentation", Sort(cmp, r.jsc))]))])
  }

  function PublicationFingerprint(cmp: Compare, r: Option<DidRecord>): string {
    if r.None? then "" else StableStringify(cmp, PublicationValue(cmp, r.value))
  }

  function DocumentFingerprint(cmp: Compare, r: Option<DidRecord>): string {
    if r.None? || r.value.document.None? then "" else StableStringify(cmp, r.value.document.value)
  }

  // ---------------------------------------------------------------- what the fingerprints stand for

  ghost predicate SameValue(a: Option<Json>, b: Option<Json>) {
    (a.None? && b.None?) || (a.Some? && b.Some? && Same(a.value, b.value))
  }

  /** The same keys, with the same values up to key order. */
  ghost predicate SameEntries(a: seq<Entry<Option<Json>>>, b: seq<Entry<Option<Json>>>) {
    && KeysIn(a, b) && KeysIn(b, a)
    && forall i :: 0 <= i < |a| ==> SameValue(a[i].value, b[IndexOf(b, a[i].key)].value)
  }

  /** The lists agree position by position. */
  ghost predicate SameLists(a: seq<Entry<Option<Json>>>, b: seq<Entry<Option<Json>>>) {
    |a| == |b| && forall i :: 0 <= i < |a| ==> a[i].key == b[i].key && SameValue(a[i].value, b[i].value)
  }

  /** The entries with the key, in order. */
  function OfKey(es: seq<Entry<Option<Json>>>, key: string): seq<Entry<Option<Json>>> {
    if es == [] then []
    else
      var n := |es| - 1;
      OfKey(es[..n], key) + (if es[n].key == key then [es[n]] else [])
  }

  /** The same keys, and under each key the same values in the same order. */
  ghost predicate SameInOrder(a: seq<Entry<Option<Json>>>, b: seq<Entry<Option<Json>>>) {
    forall key :: SameLists(OfKey(a, key), OfKey(b, key))
  }

  /** Two records announce the same linked presentations and hold the same ones. */
  ghost predicate SamePublication(r: DidRecord, q: DidRecord) {
    && SameInOrder(LinkedServices(r.services), LinkedServices(q.services))
    && SameEntries(r.vtc, q.vtc) && SameEntries(r.jsc, q.jsc)
  }

  ghost predicate ValidValues(es: seq<Entry<Option<Json>>>) {
    forall i :: 0 <= i < |es| && es[i].value.Some? ==> Valid(es[i].value.value)
  }

  /** Values are JSON; the metadata are objects, so that no two of their entries share a key. */
  ghost predicate ValidRecord(r: DidRecord) {
    && (r.document.Some? ==> Valid(r.document.value))
    && ValidValues(LinkedServices(r.services))
    && ValidValues(r.vtc) && DistinctKeys(r.vtc)
    && ValidValues(r.jsc) && DistinctKeys(r.jsc)
  }

  lemma ObjectIsSameIff(idName: string, valueName: string, d: Entry<Option<Json>>, e: Entry<Option<Json>>)
    requires idName != valueName
    ensures Same(AsObject(idName, valueName, d), AsObject(idName, valueName, e)) <==>
            d.key == e.key && SameValue(d.value, e.value)
  {
    var v, w := AsObject(idName, valueName, d).entries, AsObject(idName, valueName, e).entries;
    assert v[0].key == idName && w[0].key == idName;
    assert HasKey(v, idName) && HasKey(w, idName);
    assert d.value.Some? ==> v[1].key == valueName;
    assert e.value.Some? ==> w[1].key == valueName;
    assert HasKey(v, valueName) <==> d.value.Some?;
    assert HasKey(w, valueName) <==> e.value.Some?;
    assert IndexOf(w, idName) == 0;
    assert e.value.Some? ==> IndexOf(w, valueName) == 1;
    assert Same(Str(d.key), Str(e.key)) <==> d.key == e.key;
  }

  lemma ArrayIsSameIff(idName: string, valueName: string, a: seq<Entry<Option<Json>>>, b: seq<Entry<Option<Json>>>)
    requires idName != valueName
    ensures Same(AsArray(idName, valueName, a), AsArray(idName, valueName, b)) <==> SameLists(a, b)
  {
    var v, w := AsArray(idName, valueName, a).items, AsArray(idName, valueName, b).items;
    if |a| == |b| {
      forall i | 0 <= i < |a|
        ensures Same(v[i], w[i]) <==> a[i].key == b[i].key && SameValue(a[i].value, b[i].value)
      {
        ObjectIsSameIff(idName, valueName, a[i], b[i]);
      }
    }
  }

  // ---------------------------------------------------------------- sorted lists

  lemma OfKeySnoc(es: seq<Entry<Option<Json>>>, e: Entry<Option<Json>>, key: string)
    ensures OfKey(es + [e], key) == OfKey(es, key) + (if e.key == key then [e] else [])
  {
    assert (es + [e])[..|es + [e]| - 1] == es;
  }

  lemma {:induction false} OfKeyMembers(es: seq<Entry<Option<Json>>>, key: string)
    ensures forall e :: e in OfKey(es, key) <==> e in es && e.key == key
  {
    if es != [] {
      OfKeyMembers(es[..|es| - 1], key);
      assert es == es[..|es| - 1] + [es[|es| - 1]];
    }
  }

  lemma {:induction false} InsertOfKey(cmp: Compare, e: Entry<Option<Json>>, es: seq<Entry<Option<Json>>>, key: string)
    requires Consistent(cmp)
    ensures OfKey(Insert(cmp, e, es), key) == OfKey(es, key) + (if e.key == key then [e] else [])
    decreases |es|
  {
    assert Opposite(cmp, e.key, e.key);
    if es == [] || cmp(es[|es| - 1].key, e.key) <= 0 {
      OfKeySnoc(es, e, key);
    } else {
      var n := |es| - 1;
      assert es[n].key != e.key;
      InsertOfKey(cmp, e, es[..n], key);
      OfKeySnoc(Insert(cmp, e, es[..n]), es[n], key);
    }
  }

  /** The sort is stable. */
  lemma {:induction false} SortOfKey(cmp: Compare, es: seq<Entry<Option<Json>>>, key: string)
    requires Consistent(cmp)
    ensures OfKey(Sort(cmp, es), key) == OfKey(es, key)
  {
    if es != [] {
      SortOfKey(cmp, es[..|es| - 1], key);
      InsertOfKey(cmp, es[|es| - 1], Sort(cmp, es[..|es| - 1]), key);
    }
  }

  /** The last key of a sorted list is not below a key of the list. */
  lemma LastKeyIsAbove(cmp: Compare, es: seq<Entry<Option<Json>>>, key: string)
    requires Consistent(cmp) && Sorted(cmp, es) && OfKey(es, key) != []
    ensures es != [] && cmp(key, es[|es| - 1].key) <= 0
  {
    var e := OfKey(es, key)[0];
    OfKeyMembers(es, key);
    assert e in es && e.key == key;
    assert Opposite(cmp, key, key);
  }

  /** The last entries of two sorted lists with the same values under each key. */
  lemma SameLastEntry(cmp: Compare, a: seq<Entry<Option<Json>>>, b: seq<Entry<Option<Json>>>)
    requires Consistent(cmp) && Strict(cmp) && Sorted(cmp, a) && Sorted(cmp, b) && SameInOrder(a, b)
    requires a != [] && b != []
    ensures a[|a| - 1].key == b[|b| - 1].key && SameValue(a[|a| - 1].value, b[|b| - 1].value)
  {
    var x, y := a[|a| - 1], b[|b| - 1];
    LastOfKey(a);
    LastOfKey(b);
    assert SameLists(OfKey(a, x.key), OfKey(b, x.key)) && SameLists(OfKey(a, y.key), OfKey(b, y.key));
    LastKeyIsAbove(cmp, b, x.key);
    LastKeyIsAbove(cmp, a, y.key);
    assert Opposite(cmp, x.key, y.key) && Opposite(cmp, y.key, x.key);
  }

  lemma LastOfKey(es: seq<Entry<Option<Json>>>)
    requires es != []
    ensures var e := es[|es| - 1]; OfKey(es, e.key) != [] && OfKey(es, e.key)[|OfKey(es, e.key)| - 1] == e
  {
  }

  lemma EmptyInOrder(a: seq<Entry<Option<Json>>>, b: seq<Entry<Option<Json>>>)
    requires SameInOrder(a, b)
    ensures a == [] <==> b == []
  {
    if a != [] {
      var key := a[|a| - 1].key;
      assert SameLists(OfKey(a, key), OfKey(b, key)) && OfKey(a, key) != [];
    }
    if b != [] {
      var key := b[|b| - 1].key;
      assert SameLists(OfKey(a, key), OfKey(b, key)) && OfKey(b, key) != [];
    }
  }

  lemma {:induction false} InOrderToLists(cmp: Compare, a: seq<Entry<Option<Json>>>, b: seq<Entry<Option<Json>>>)
    requires Consistent(cmp) && Strict(cmp) && Sorted(cmp, a) && Sorted(cmp, b) && SameInOrder(a, b)
    ensures SameLists(a, b)
  {
    EmptyInOrder(a, b);
    if a != [] {
      var m, n := |a| - 1, |b| - 1;
      SameLastEntry(cmp, a, b);
      forall key ensures SameLists(OfKey(a[..m], key), OfKey(b[..n], key)) {
        assert SameLists(OfKey(a, key), OfKey(b, key));
        FrontOfKey(a, key);
        FrontOfKey(b, key);
      }
      InOrderToLists(cmp, a[..m], b[..n]);
      forall i | 0 <= i < |a| ensures a[i].key == b[i].key && SameValue(a[i].value, b[i].value) {
        assert i < m ==> a[..m][i] == a[i] && b[..n][i] == b[i];
      }
    }
  }

  lemma FrontOfKey(es: seq<Entry<Option<Json>>>, key: string)
    requires es != []
    ensures var n := |es| - 1;
            OfKey(es[..n], key) ==
            if es[n].key == key then OfKey(es, key)[..|OfKey(es, key)| - 1] else OfKey(es, key)
  {
  }

  lemma {:induction false} ListsToInOrder(a: seq<Entry<Option<Json>>>, b: seq<Entry<Option<Json>>>, key: string)
    requires SameLists(a, b)
    ensures SameLists(OfKey(a, key), OfKey(b, key))
  {
    if a != [] {
      var n := |a| - 1;
      ListsToInOrder(a[..n], b[..n], key);
    }
  }

  /** The sorted lists agree exactly when the lists agree under each key. */
  lemma SortedListsIff(cmp: Compare, a: seq<Entry<Option<Json>>>, b: seq<Entry<Option<Json>>>)
    requires Consistent(cmp) && Strict(cmp)
    ensures SameLists(Sort(cmp, a), Sort(cmp, b)) <==> SameInOrder(a, b)
  {
    SortSorts(cmp, a);
    SortSorts(cmp, b);
    forall key ensures OfKey(Sort(cmp, a), key) == OfKey(a, key) && OfKey(Sort(cmp, b), key) == OfKey(b, key) {
      SortOfKey(cmp, a, key);
      SortOfKey(cmp, b, key);
    }
    if SameInOrder(a, b) {
      forall key ensures SameLists(OfKey(Sort(cmp, a), key), OfKey(Sort(cmp, b), key)) {
        assert SameLists(OfKey(a, key), OfKey(b, key));
      }
      InOrderToLists(cmp, Sort(cmp, a), Sort(cmp, b));
    }
    if SameLists(Sort(cmp, a), Sort(cmp, b)) {
      forall key ensures SameLists(OfKey(a, key), OfKey(b, key)) {
        ListsToInOrder(Sort(cmp, a), Sort(cmp, b), key);
      }
    }
  }

  /** With distinct keys there is at most one entry under each key. */
  lemma {:induction false} OfDistinctKey(es: seq<Entry<Option<Json>>>, key: string)
    requires DistinctKeys(es)
    ensures OfKey(es, key) == if HasKey(es, key) then [es[IndexOf(es, key)]] else []
  {
    if es != [] {
      var n := |es| - 1;
      OfDistinctKey(es[..n], key);
      if HasKey(es, key) && es[n].key != key {
        assert es[..n][IndexOf(es, key)].key == key;
      }
      if HasKey(es[..n], key) {
        assert es[IndexOf(es[..n], key)].key == key;
      } else if es[n].key == key {
        assert IndexOf(es, key) == n;
      }
    }
  }

  lemma KeyMoves(a: seq<Entry<Option<Json>>>, b: seq<Entry<Option<Json>>>, key: string)
    requires KeysIn(a, b)
    ensures HasKey(a, key) ==> HasKey(b, key)
  {
    if HasKey(a, key) {
      assert HasKey(b, a[IndexOf(a, key)].key);
    }
  }

  /** The entries under one key, with distinct keys. */
  lemma UnderOneKey(a: seq<Entry<Option<Json>>>, b: seq<Entry<Option<Json>>>, key: string)
    requires DistinctKeys(a) && DistinctKeys(b)
    ensures SameLists(OfKey(a, key), OfKey(b, key)) <==>
            && (HasKey(a, key) <==> HasKey(b, key))
            && (HasKey(a, key) && HasKey(b, key) ==> SameValue(a[IndexOf(a, key)].value, b[IndexOf(b, key)].value))
  {
    OfDistinctKey(a, key);
    OfDistinctKey(b, key);
    if HasKey(a, key) && HasKey(b, key) {
      var x, y := a[IndexOf(a, key)], b[IndexOf(b, key)];
      assert OfKey(a, key) == [x] && OfKey(b, key) == [y] && x.key == key == y.key;
      assert [x][0] == x && [y][0] == y;
    }
  }

  lemma EntriesToInOrder(a: seq<Entry<Option<Json>>>, b: seq<Entry<Option<Json>>>)
    requires DistinctKeys(a) && DistinctKeys(b) && SameEntries(a, b)
    ensures SameInOrder(a, b)
  {
    forall key ensures SameLists(OfKey(a, key), OfKey(b, key)) {
      KeyMoves(a, b, key);
      KeyMoves(b, a, key);
      UnderOneKey(a, b, key);
    }
  }

  lemma InOrderToEntries(a: seq<Entry<Option<Json>>>, b: seq<Entry<Option<Json>>>)
    requires DistinctKeys(a) && DistinctKeys(b) && SameInOrder(a, b)
    ensures SameEntries(a, b)
  {
    forall i | 0 <= i < |a| ensures HasKey(b, a[i].key) && SameValue(a[i].value, b[IndexOf(b, a[i].key)].value) {
      assert SameLists(OfKey(a, a[i].key), OfKey(b, a[i].key)) && HasKey(a, a[i].key);
      UnderOneKey(a, b, a[i].key);
      assert IndexOf(a, a[i].key) == i;
    }
    forall j | 0 <= j < |b| ensures HasKey(a, b[j].key) {
      assert SameLists(OfKey(a, b[j].key), OfKey(b, b[j].key)) && HasKey(b, b[j].key);
      UnderOneKey(a, b, b[j].key);
    }
  }

  /** With distinct keys the order of the entries does not matter. */
  lemma DistinctKeysHideOrder(a: seq<Entry<Option<Json>>>, b: seq<Entry<Option<Json>>>)
    requires DistinctKeys(a) && DistinctKeys(b)
    ensures SameInOrder(a, b) <==> SameEntries(a, b)
  {
    if SameEntries(a, b) {
      EntriesToInOrder(a, b);
    }
    if SameInOrder(a, b) {
      InOrderToEntries(a, b);
    }
  }

  // ---------------------------------------------------------------- the claims

  lemma ArrayIsValid(cmp: Compare, idName: string, valueName: string, es: seq<Entry<Option<Json>>>)
    requires idName != valueName && ValidValues(es)
    ensures Valid(AsArray(idName, valueName, Sort(cmp, es)))
  {
    var s := Sort(cmp, es);
    forall k | 0 <= k < |s| ensures Valid(AsObject(idName, valueName, s[k])) {
      assert s[k] in es;
    }
  }

  lemma MembersAreSameIff(k: string, l: string, a: Json, b: Json, c: Json, d: Json)
    requires k != l
    ensures Same(Obj([Entry(k, a), Entry(l, b)]), Obj([Entry(k, c), Entry(l, d)])) <==> Same(a, c) && Same(b, d)
  {
    var v, w := [Entry(k, a), Entry(l, b)], [Entry(k, c), Entry(l, d)];
    assert v[0].key == k == w[0].key && v[1].key == l == w[1].key;
    assert HasKey(v, k) && HasKey(w, k) && HasKey(v, l) && HasKey(w, l);
    assert IndexOf(w, k) == 0 && IndexOf(w, l) == 1;
    assert KeysIn(v, w) && KeysIn(w, v) by {
      assert forall i :: 0 <= i < |v| ==> v[i].key == w[i].key;
    }
    if Same(a, c) && Same(b, d) {
      forall i | 0 <= i < |v| ensures Same(v[i].value, w[IndexOf(w, v[i].key)].value) {
        assert i == 0 || i == 1;
      }
    }
  }

  lemma ItemsAreSameIff(a: Json, b: Json, c: Json, d: Json)
    ensures Same(Arr([a, b]), Arr([c, d])) <==> Same(a, c) && Same(b, d)
  {
    var v, w := [a, b], [c, d];
    assert v[0] == a && v[1] == b && w[0] == c && w[1] == d;
  }

  /** The two members of the fingerprinted value, compared on their own. */
  lemma PublicationIsSameIff(cmp: Compare, r: DidRecord, q: DidRecord)
    ensures Same(PublicationValue(cmp, r), PublicationValue(cmp, q)) <==>
            && SameLists(Sort(cmp, LinkedServices(r.services)), Sort(cmp, LinkedServices(q.services)))
            && SameLists(Sort(cmp, r.vtc), Sort(cmp, q.vtc))
            && SameLists(Sort(cmp, r.jsc), Sort(cmp, q.jsc))
  {
    ArrayIsSameIff("id", "serviceEndpoint", Sort(cmp, LinkedServices(r.services)), Sort(cmp, LinkedServices(q.services)));
    ArrayIsSameIff("schemaId", "presentation", Sort(cmp, r.vtc), Sort(cmp, q.vtc));
    ArrayIsSameIff("schemaId", "presentation", Sort(cmp, r.jsc), Sort(cmp, q.jsc));
    var v, w := PublicationValue(cmp, r).entries, PublicationValue(cmp, q).entries;
    var x, y := v[1].value.items, w[1].value.items;
    MembersAreSameIff("services", "presentations", v[0].value, v[1].value, w[0].value, w[1].value);
    ItemsAreSameIff(x[0], x[1], y[0], y[1]);
  }

  lemma PublicationIsValid(cmp: Compare, r: DidRecord)
    requires ValidRecord(r)
    ensures Valid(PublicationValue(cmp, r))
  {
    ArrayIsValid(cmp, "id", "serviceEndpoint", LinkedServices(r.services));
    ArrayIsValid(cmp, "schemaId", "presentation", r.vtc);
    ArrayIsValid(cmp, "schemaId", "presentation", r.jsc);
  }

  /**
   * Main result. Two records have the same publication fingerprint exactly when they announce the same
   * linked presentations, under each service id in the same order, and hold the same presentations: the
   * order of ids, of metadata entries and of object keys does not show, and every other difference does.
   */
  lemma PublicationFingerprintIff(cmp: Compare, r: DidRecord, q: DidRecord)
    requires Consistent(cmp) && Strict(cmp) && ValidRecord(r) && ValidRecord(q)
    ensures PublicationFingerprint(cmp, Some(r)) == PublicationFingerprint(cmp, Some(q)) <==> SamePublication(r, q)
    ensures PublicationFingerprint(cmp, Some(r)) != PublicationFingerprint(cmp, None)
  {
    PublicationIsValid(cmp, r);
    PublicationIsValid(cmp, q);
    StableTextIffSame(cmp, PublicationValue(cmp, r), PublicationValue(cmp, q));
    PublicationIsSameIff(cmp, r, q);
    SortedListsIff(cmp, LinkedServices(r.services), LinkedServices(q.services));
    SortedListsIff(cmp, r.vtc, q.vtc);
    SortedListsIff(cmp, r.jsc, q.jsc);
    DistinctKeysHideOrder(r.vtc, q.vtc);
    DistinctKeysHideOrder(r.jsc, q.jsc);
  }

  /** The order of the services does not show when no two linked presentations share a service id. */
  lemma ServiceOrderIsHidden(cmp: Compare, r: DidRecord, services: seq<Service>)
    requires Consistent(cmp) && Strict(cmp) && ValidRecord(r) && ValidRecord(r.(services := services))
    requires DistinctKeys(LinkedServices(r.services)) && DistinctKeys(LinkedServices(services))
    requires SameEntries(LinkedServices(r.services), LinkedServices(services))
    ensures PublicationFingerprint(cmp, Some(r)) == PublicationFingerprint(cmp, Some(r.(services := services)))
  {
    PublicationFingerprintIff(cmp, r, r.(services := services));
    DistinctKeysHideOrder(LinkedServices(r.services), LinkedServices(services));
    SameAsItself(cmp, r.vtc);
    SameAsItself(cmp, r.jsc);
  }

  lemma SameAsItself(cmp: Compare, es: seq<Entry<Option<Json>>>)
    requires Consistent(cmp) && Strict(cmp) && ValidValues(es) && DistinctKeys(es)
    ensures SameEntries(es, es)
  {
    forall i | 0 <= i < |es| ensures HasKey(es, es[i].key) && SameValue(es[i].value, es[IndexOf(es, es[i].key)].value) {
      assert HasKey(es, es[i].key) && IndexOf(es, es[i].key) == i;
      if es[i].value.Some? {
        StableTextIffSame(cmp, es[i].value.value, es[i].value.value);
      }
    }
  }

  lemma LinkedPair(x: Service, y: Service)
    requires x.kind == y.kind == LINKED_VP
    ensures LinkedServices([x, y]) == [Entry(x.id, x.endpoint), Entry(y.id, y.endpoint)]
  {
    assert [x, y][1..] == [y] && [y][1..] == [];
    assert LinkedServices([y]) == [Entry(y.id, y.endpoint)];
  }

  lemma PairUnderKey(a: Entry<Option<Json>>, b: Entry<Option<Json>>)
    requires a.key == b.key
    ensures OfKey([a, b], a.key) == [a, b]
  {
    assert [a, b] == [a] + [b] && [a] == [] + [a];
    OfKeySnoc([a], b, a.key);
    OfKeySnoc([], a, a.key);
  }

  /** Two linked presentations under one id: their order shows, although the same two are announced. */
  lemma SharedIdShowsOrder(cmp: Compare) returns (r: DidRecord, q: DidRecord)
    requires Consistent(cmp) && Strict(cmp)
    ensures ValidRecord(r) && ValidRecord(q) && |q.services| == 2 && r == q.(services := [q.services[1], q.services[0]])
    ensures PublicationFingerprint(cmp, Some(r)) != PublicationFingerprint(cmp, Some(q))
  {
    var x, y := Service("a", LINKED_VP, Some(Str("x"))), Service("a", LINKED_VP, Some(Str("y")));
    r := DidRecord(None, [x, y], [], []);
    q := DidRecord(None, [y, x], [], []);
    LinkedPair(x, y);
    LinkedPair(y, x);
    PublicationFingerprintIff(cmp, r, q);
    var a, b := Entry("a", x.endpoint), Entry("a", y.endpoint);
    PairUnderKey(a, b);
    PairUnderKey(b, a);
    assert !SameValue(a.value, b.value);
    assert !SameLists([a, b], [b, a]);
  }

  /** Two records have the same document fingerprint exactly when they serve the same document, or none. */
  lemma DocumentFingerprintIff(cmp: Compare, r: Option<DidRecord>, q: Option<DidRecord>)
    requires Consistent(cmp) && Strict(cmp)
    requires (r.Some? ==> ValidRecord(r.value)) && (q.Some? ==> ValidRecord(q.value))
    ensures var a := if r.Some? then r.value.document else None;
            var b := if q.Some? then q.value.document else None;
            DocumentFingerprint(cmp, r) == DocumentFingerprint(cmp, q) <==> SameValue(a, b)
  {
    var a := if r.Some? then r.value.document else None;
    var b := if q.Some? then q.value.document else None;
    if a.Some? && b.Some? {
      StableTextIffSame(cmp, a.value, b.value);
    } else if a.Some? {
      TextIsNotEmpty(cmp, a.value);
    } else if b.Some? {
      TextIsNotEmpty(cmp, b.value);
    }
  }

  lemma TextIsNotEmpty(cmp: Compare, v: Json)
    requires Valid(v)
    ensures StableStringify(cmp, v) != ""
  {
    StableTextOfCanon(cmp, v);
    CanonIsValid(cmp, v);
    StartsWith(Canon(cmp, v), "");
  }
}
