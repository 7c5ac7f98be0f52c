/**
 * The linked presentations of the agent: the metadata entries of the DID record and the services of the
 * DID Document that announce them.
 *
 * Models packages/agent-sdk/src/utils/trustCredentialStore.ts. A metadata object lists its entries in the
 * order of insertion; the ids of credentials and presentations stand for their contents.
 */
module LinkedVpStore {
  import opened Options

  const LINKED_VP := "LinkedVerifiablePresentation"
  const LEGACY_SUFFIX := "-jsc-vp"
  const SUFFIX := "-vtjsc-vp"

  datatype Service = Service(id: string, endpoint: string, kind: string)

  datatype Entry = Entry(credential: Option<string>, presentation: Option<string>, serviceId: Option<string>,
                         typeMetadata: Option<string>, attached: Option<bool>)

  datatype Item = Item(ref: string, entry: Entry)

  /** The `_vt/vtc` and the `_vt/jsc` metadata, and the services, if the document has a list of them. */
  datatype Store = Store(vtc: seq<Item>, jsc: seq<Item>, services: Option<seq<Service>>)

  datatype Key = Vtc | Jsc

  function Metadata(s: Store, key: Key): seq<Item> {
    if key == Vtc then s.vtc else s.jsc
  }

  function WithMetadata(s: Store, key: Key, items: seq<Item>): Store {
    if key == Vtc then s.(vtc := items) else s.(jsc := items)
  }

  // ---------------------------------------------------------------- lists

  predicate HasRef(items: seq<Item>, ref: string) {
    exists i :: 0 <= i < |items| && items[i].ref == ref
  }

  function Get(items: seq<Item>, ref: string): Option<Entry> {
    if items == [] then None
    else if items[0].ref == ref then Some(items[0].entry)
    else Get(items[1..], ref)
  }

  function Without(items: seq<Item>, ref: string): seq<Item> {
    if items == [] then []
    else if items[0].ref == ref then Without(items[1..], ref)
    else [items[0]] + Without(items[1..], ref)
  }

  /** The services with another id. */
  function Dropped(services: seq<Service>, id: Option<string>): seq<Service> {
    if services == [] then []
    else if id == Some(services[0].id) then Dropped(services[1..], id)
    else [services[0]] + Dropped(services[1..], id)
  }

  predicate DistinctRefs(items: seq<Item>) {
    forall i, j :: 0 <= i < j < |items| ==> items[i].ref != items[j].ref
  }

  predicate DistinctIds(services: seq<Service>) {
    forall i, j :: 0 <= i < j < |services| ==> services[i].id != services[j].id
  }

  // ---------------------------------------------------------------- findMetadataEntry

  /** An entry matches by the id of its credential or of its presentation; a missing id matches a missing id. */
  predicate Matches(x: Item, id: Option<string>) {
    x.entry.credential == id || x.entry.presentation == id
  }

  predicate Announcing(x: Item) {
    x.entry.attached != Some(false)
  }

  function FirstMatch(items: seq<Item>, id: Option<string>, announcing: bool): Option<Item> {
    if items == [] then None
    else if Matches(items[0], id) && (announcing ==> Announcing(items[0])) then Some(items[0])
    else FirstMatch(items[1..], id, announcing)
  }

  /** The entry of a reference, or else the first announced match, or else the first match. */
  function Find(items: seq<Item>, id: Option<string>, ref: string): Option<Item> {
    if Get(items, ref).Some? then Some(Item(ref, Get(items, ref).value))
    else if FirstMatch(items, id, true).Some? then FirstMatch(items, id, true)
    else FirstMatch(items, id, false)
  }

  // ---------------------------------------------------------------- the operations

  /** The service that announces an entry. */
  function Announcement(e: Entry): Option<Service> {
    if e.serviceId.Some? && e.presentation.Some? then Some(Service(e.serviceId.value, e.presentation.value, LINKED_VP))
    else None
  }

  function DropServices(s: Store, id: Option<string>): Store {
    if s.services.Some? then s.(services := Some(Dropped(s.services.value, id))) else s
  }

  /** `saveMetadataEntry`. */
  function Save(s: Store, key: Key, ref: string, credential: Option<string>, presentation: string, serviceId: string): Store {
    var items := Metadata(s, key);
    var found := Find(items, credential, ref);
    var kept := if found.Some? && found.value.ref == ref then found.value.entry.typeMetadata else None;
    var cleared := if found.Some? then DropServices(s, found.value.entry.serviceId) else s;
    var rest := if found.Some? then Without(items, found.value.ref) else items;
    var entry := Entry(credential, Some(presentation), Some(serviceId), kept, None);
    var t := WithMetadata(cleared, key, rest + [Item(ref, entry)]);
    if t.services.Some? then t.(services := Some(t.services.value + [Service(serviceId, presentation, LINKED_VP)])) else t
  }

  /** `removeTrustCredential`. */
  function Remove(s: Store, key: Key, id: string): Store {
    var found := Find(Metadata(s, key), Some(id), id);
    if found.None? then s
    else WithMetadata(DropServices(s, found.value.entry.serviceId), key, Without(Metadata(s, key), found.value.ref))
  }

  function DetachOne(s: Store, ref: string): Store {
    var entry := Get(s.jsc, ref);
    if entry.None? then s else DropServices(s, entry.value.serviceId)
  }

  /** `detachVtjscPublications`. */
  function Detach(s: Store, refs: seq<string>): Store {
    if refs == [] then s else DetachOne(Detach(s, refs[..|refs| - 1]), refs[|refs| - 1])
  }

  predicate HasService(services: seq<Service>, id: string) {
    exists i :: 0 <= i < |services| && services[i].id == id
  }

  /** The document holds a service under the id that the entry of the reference names. */
  predicate Announced(s: Store, ref: string) {
    && s.services.Some? && Get(s.jsc, ref).Some? && Get(s.jsc, ref).value.serviceId.Some?
    && HasService(s.services.value, Get(s.jsc, ref).value.serviceId.value)
  }

  /** The references that `detachVtjscPublications` reports: those whose service it took out. */
  function DetachedRefs(s: Store, refs: seq<string>): seq<string> {
    if refs == [] then []
    else
      var front, last := refs[..|refs| - 1], refs[|refs| - 1];
      DetachedRefs(s, front) + (if Announced(Detach(s, front), last) then [last] else [])
  }

  /** `reattachVtjscPublication`. */
  function Reattach(s: Store, ref: string): Store {
    var entry := Get(s.jsc, ref);
    var services := if s.services.Some? then s.services.value else [];
    if entry.None? || Announcement(entry.value).None? then s
    else if HasService(services, entry.value.serviceId.value) then s
    else s.(services := Some(services + [Announcement(entry.value).value]))
  }

  function ReattachAll(s: Store, refs: seq<string>): Store {
    if refs == [] then s else Reattach(ReattachAll(s, refs[..|refs| - 1]), refs[|refs| - 1])
  }

  /** `saveVtjscTypeMetadata`. */
  function SaveTypeMetadata(s: Store, ref: string, text: string): Store {
    s.(jsc := seq(|s.jsc|, i requires 0 <= i < |s.jsc| =>
                if s.jsc[i].ref == ref && s.jsc[i].entry.typeMetadata.None?
                then s.jsc[i].(entry := s.jsc[i].entry.(typeMetadata := Some(text))) else s.jsc[i]))
  }

  predicate IsLegacy(id: string) {
    |id| >= |LEGACY_SUFFIX| && id[|id| - |LEGACY_SUFFIX|..] == LEGACY_SUFFIX
  }

  /** The id with the suffix of today. */
  function Renamed(id: string): string {
    if IsLegacy(id) then id[..|id| - |LEGACY_SUFFIX|] + SUFFIX else id
  }

  function RenamedItem(x: Item): Item {
    if x.entry.serviceId.Some? then x.(entry := x.entry.(serviceId := Some(Renamed(x.entry.serviceId.value)))) else x
  }

  /** A `_vt/jsc` entry names the service under an id that is to be renamed. */
  predicate ToRename(items: seq<Item>, id: string) {
    IsLegacy(id) && exists i :: 0 <= i < |items| && items[i].entry.serviceId == Some(id)
  }

  function RenamedService(items: seq<Item>, v: Service): Service {
    if ToRename(items, v.id) then v.(id := Renamed(v.id)) else v
  }

  /** `migrateVtjscServiceIds`, for services with distinct ids. */
  function Migrate(s: Store): Store {
    s.(jsc := seq(|s.jsc|, i requires 0 <= i < |s.jsc| => RenamedItem(s.jsc[i])),
       services := if s.services.None? then None
                   else Some(seq(|s.services.value|, i requires 0 <= i < |s.services.value| =>
                               RenamedService(s.jsc, s.services.value[i]))))
  }

  // ---------------------------------------------------------------- what the lists hold

  lemma {:induction false} WithoutMembers(items: seq<Item>, ref: string)
    ensures forall x :: x in Without(items, ref) <==> x in items && x.ref != ref
    ensures DistinctRefs(items) ==> DistinctRefs(Without(items, ref))
  {
    if items != [] {
      WithoutMembers(items[1..], ref);
      assert items == [items[0]] + items[1..];
      var rest := Without(items[1..], ref);
      assert forall i :: 0 <= i < |rest| ==> rest[i] in rest;
    }
  }

  lemma {:induction false} DroppedMembers(services: seq<Service>, id: Option<string>)
    ensures forall v :: v in Dropped(services, id) <==> v in services && id != Some(v.id)
    ensures DistinctIds(services) ==> DistinctIds(Dropped(services, id))
  {
    if services != [] {
      DroppedMembers(services[1..], id);
      assert services == [services[0]] + services[1..];
      var rest := Dropped(services[1..], id);
      forall i | 0 <= i < |rest| && DistinctIds(services) ensures rest[i].id != services[0].id {
        assert rest[i] in rest;
      }
    }
  }

  lemma {:induction false} GetFinds(items: seq<Item>, ref: string)
    ensures Get(items, ref).Some? <==> HasRef(items, ref)
    ensures Get(items, ref).Some? ==> Item(ref, Get(items, ref).value) in items
    ensures DistinctRefs(items) ==> forall x :: x in items && x.ref == ref ==> Get(items, ref) == Some(x.entry)
  {
    if items != [] {
      GetFinds(items[1..], ref);
      assert items == [items[0]] + items[1..];
      if HasRef(items, ref) && items[0].ref != ref {
        var i :| 0 <= i < |items| && items[i].ref == ref;
        assert items[1..][i - 1].ref == ref;
      }
    }
  }

  // ---------------------------------------------------------------- what find answers

  lemma {:induction false} FirstMatchFinds(items: seq<Item>, id: Option<string>, announcing: bool)
    ensures FirstMatch(items, id, announcing).None? <==>
            forall x :: x in items && Matches(x, id) ==> announcing && !Announcing(x)
    ensures FirstMatch(items, id, announcing).Some? ==>
              var x := FirstMatch(items, id, announcing).value;
              x in items && Matches(x, id) && (announcing ==> Announcing(x))
  {
    if items != [] {
      FirstMatchFinds(items[1..], id, announcing);
      assert items == [items[0]] + items[1..];
    }
  }

  /** An entry is found exactly when one has the reference or matches the id; an announced match wins over a detached one. */
  lemma FindFinds(items: seq<Item>, id: Option<string>, ref: string)
    ensures Find(items, id, ref).Some? <==>
            HasRef(items, ref) || exists x :: x in items && (x.entry.credential == id || x.entry.presentation == id)
    ensures Find(items, id, ref).Some? ==>
              var x := Find(items, id, ref).value;
              && x in items
              && (x.ref == ref <==> HasRef(items, ref))
              && (x.ref != ref ==> x.entry.credential == id || x.entry.presentation == id)
              && (x.ref != ref && x.entry.attached == Some(false) ==>
                    forall y :: y in items && (y.entry.credential == id || y.entry.presentation == id) ==>
                      y.entry.attached == Some(false))
  {
    GetFinds(items, ref);
    FirstMatchFinds(items, id, true);
    FirstMatchFinds(items, id, false);
    assert forall x :: x in items && x.ref == ref ==> HasRef(items, ref);
  }

  // ---------------------------------------------------------------- the invariant

  /** A service under the id of an entry is the announcement of that entry. */
  predicate Fits(x: Item, v: Service) {
    x.entry.serviceId == Some(v.id) ==> Announcement(x.entry) == Some(v)
  }

  ghost predicate AllFit(items: seq<Item>, services: seq<Service>) {
    forall x, v :: x in items && v in services ==> Fits(x, v)
  }

  predicate SameService(x: Item, y: Item) {
    x.entry.serviceId.Some? && x.entry.serviceId == y.entry.serviceId
  }

  /** No two entries name one service. */
  ghost predicate OwnServices(s: Store) {
    && (forall x, y :: x in s.vtc && y in s.vtc && SameService(x, y) ==> x.ref == y.ref)
    && (forall x, y :: x in s.jsc && y in s.jsc && SameService(x, y) ==> x.ref == y.ref)
    && (forall x, y :: x in s.vtc && y in s.jsc ==> !SameService(x, y))
  }

  ghost predicate Inv(s: Store) {
    && s.services.Some? && DistinctIds(s.services.value)
    && DistinctRefs(s.vtc) && DistinctRefs(s.jsc)
    && AllFit(s.vtc, s.services.value) && AllFit(s.jsc, s.services.value)
    && OwnServices(s)
  }

  datatype Op =
    | SaveEntry(key: Key, ref: string, credential: Option<string>, presentation: string, serviceId: string)
    | RemoveEntry(key: Key, id: string)
    | DetachEntries(refs: seq<string>)
    | ReattachEntry(ref: string)
    | MigrateIds
    | SaveText(ref: string, text: string)

  function Apply(s: Store, op: Op): Store {
    match op
    case SaveEntry(key, ref, credential, presentation, serviceId) => Save(s, key, ref, credential, presentation, serviceId)
    case RemoveEntry(key, id) => Remove(s, key, id)
    case DetachEntries(refs) => Detach(s, refs)
    case ReattachEntry(ref) => Reattach(s, ref)
    case MigrateIds => Migrate(s)
    case SaveText(ref, text) => SaveTypeMetadata(s, ref, text)
  }

  ghost predicate Taken(s: Store, id: string) {
    || (s.services.Some? && HasService(s.services.value, id))
    || (exists x :: x in s.vtc + s.jsc && x.entry.serviceId == Some(id))
  }

  /** What a save leaves of the entry that it replaces: nothing. */
  function Cleared(s: Store, key: Key, ref: string, credential: Option<string>): Store {
    var found := Find(Metadata(s, key), credential, ref);
    if found.None? then s
    else WithMetadata(DropServices(s, found.value.entry.serviceId), key, Without(Metadata(s, key), found.value.ref))
  }

  /** A saved entry brings a service id of its own, and no id of today is in the way of a renamed one. */
  ghost predicate Fresh(s: Store, op: Op) {
    match op
    case SaveEntry(key, ref, credential, _, serviceId) => !Taken(Cleared(s, key, ref, credential), serviceId)
    case MigrateIds => forall id :: ToRename(s.jsc, id) ==> !Taken(s, Renamed(id))
    case _ => true
  }

  lemma RemoveKeepsInv(s: Store, key: Key, x: Item)
    requires Inv(s) && x in Metadata(s, key)
    ensures Inv(WithMetadata(DropServices(s, x.entry.serviceId), key, Without(Metadata(s, key), x.ref)))
  {
    DroppedMembers(s.services.value, x.entry.serviceId);
    WithoutMembers(Metadata(s, key), x.ref);
  }

  lemma ClearKeepsInv(s: Store, key: Key, ref: string, credential: Option<string>)
    requires Inv(s)
    ensures Inv(Cleared(s, key, ref, credential))
    ensures !HasRef(Metadata(Cleared(s, key, ref, credential), key), ref)
  {
    var items := Metadata(s, key);
    var found := Find(items, credential, ref);
    FindFinds(items, credential, ref);
    if found.Some? {
      RemoveKeepsInv(s, key, found.value);
      WithoutMembers(items, found.value.ref);
      var rest := Without(items, found.value.ref);
      forall i | 0 <= i < |rest| ensures rest[i].ref != ref {
        assert rest[i] in rest;
        assert rest[i].ref == ref ==> HasRef(items, ref);
      }
    }
  }

  /** The store with an entry and its announcement added. */
  function Added(s: Store, key: Key, x: Item): Store
    requires s.services.Some? && Announcement(x.entry).Some?
  {
    WithMetadata(s, key, Metadata(s, key) + [x]).(services := Some(s.services.value + [Announcement(x.entry).value]))
  }

  lemma NotTaken(s: Store, id: string)
    requires !Taken(s, id)
    ensures forall y :: y in s.vtc || y in s.jsc ==> y.entry.serviceId != Some(id)
    ensures s.services.Some? ==> forall v :: v in s.services.value ==> v.id != id
  {
    assert forall y :: y in s.vtc || y in s.jsc ==> y in s.vtc + s.jsc;
  }

  lemma AddFits(s: Store, key: Key, x: Item)
    requires Inv(s) && Announcement(x.entry).Some? && !Taken(s, x.entry.serviceId.value)
    ensures var t := Added(s, key, x);
            AllFit(t.vtc, t.services.value) && AllFit(t.jsc, t.services.value) && DistinctIds(t.services.value)
  {
    NotTaken(s, x.entry.serviceId.value);
    assert forall i :: 0 <= i < |s.services.value| ==> s.services.value[i] in s.services.value;
  }

  lemma AddOwns(s: Store, key: Key, x: Item)
    requires Inv(s) && !HasRef(Metadata(s, key), x.ref) && Announcement(x.entry).Some?
    requires !Taken(s, x.entry.serviceId.value)
    ensures var t := Added(s, key, x); OwnServices(t) && DistinctRefs(t.vtc) && DistinctRefs(t.jsc)
  {
    NotTaken(s, x.entry.serviceId.value);
    assert forall i :: 0 <= i < |Metadata(s, key)| ==> Metadata(s, key)[i].ref != x.ref;
  }

  lemma DetachKeepsInv(s: Store, refs: seq<string>)
    requires Inv(s)
    ensures Inv(Detach(s, refs)) && Detach(s, refs).jsc == s.jsc && Detach(s, refs).vtc == s.vtc
    decreases |refs|
  {
    if refs != [] {
      var front := Detach(s, refs[..|refs| - 1]);
      DetachKeepsInv(s, refs[..|refs| - 1]);
      var entry := Get(front.jsc, refs[|refs| - 1]);
      if entry.Some? {
        DroppedMembers(front.services.value, entry.value.serviceId);
      }
    }
  }

  lemma ReattachKeepsInv(s: Store, ref: string)
    requires Inv(s)
    ensures Inv(Reattach(s, ref))
  {
    GetFinds(s.jsc, ref);
    var entry := Get(s.jsc, ref);
    if entry.Some? && Announcement(entry.value).Some? && !HasService(s.services.value, entry.value.serviceId.value) {
      var x, v := Item(ref, entry.value), Announcement(entry.value).value;
      forall y | y in s.jsc ensures Fits(y, v) {
        if y.entry.serviceId == Some(v.id) {
          assert SameService(x, y);
          assert y.entry == x.entry;
        }
      }
      forall y | y in s.vtc ensures Fits(y, v) {
        assert !SameService(y, x);
      }
      assert forall i :: 0 <= i < |s.services.value| ==> s.services.value[i].id != v.id;
    }
  }

  lemma TextedItem(s: Store, ref: string, text: string, x: Item) returns (y: Item)
    requires x in SaveTypeMetadata(s, ref, text).jsc
    ensures y in s.jsc && y.ref == x.ref && y.entry.serviceId == x.entry.serviceId && Announcement(y.entry) == Announcement(x.entry)
  {
    var t := SaveTypeMetadata(s, ref, text);
    var i :| 0 <= i < |t.jsc| && t.jsc[i] == x;
    y := s.jsc[i];
  }

  lemma TextKeepsInv(s: Store, ref: string, text: string)
    requires Inv(s)
    ensures Inv(SaveTypeMetadata(s, ref, text))
  {
    var t := SaveTypeMetadata(s, ref, text);
    forall x, v | x in t.jsc && v in t.services.value ensures Fits(x, v) {
      var y := TextedItem(s, ref, text, x);
      assert Fits(y, v);
    }
    forall x, y | x in t.jsc && y in t.jsc && SameService(x, y) ensures x.ref == y.ref {
      var p := TextedItem(s, ref, text, x);
      var q := TextedItem(s, ref, text, y);
      assert SameService(p, q);
    }
    forall x, y | x in t.vtc && y in t.jsc ensures !SameService(x, y) {
      var q := TextedItem(s, ref, text, y);
      assert !SameService(x, q);
    }
  }

  // ---------------------------------------------------------------- the renaming

  lemma RenamedSuffix(id: string, other: string)
    ensures !IsLegacy(Renamed(id))
    ensures IsLegacy(id) && IsLegacy(other) && Renamed(id) == Renamed(other) ==> id == other
  {
    if IsLegacy(id) {
      var stem := id[..|id| - |LEGACY_SUFFIX|];
      assert id == stem + LEGACY_SUFFIX;
      assert Renamed(id) == stem + SUFFIX;
      assert Renamed(id)[|Renamed(id)| - |LEGACY_SUFFIX|] == SUFFIX[2];
      if IsLegacy(other) && Renamed(id) == Renamed(other) {
        var otherStem := other[..|other| - |LEGACY_SUFFIX|];
        assert other == otherStem + LEGACY_SUFFIX;
        assert Renamed(other) == otherStem + SUFFIX;
        assert |stem| == |otherStem|;
        assert stem == Renamed(id)[..|stem|] == otherStem;
      }
    }
  }

  /** The ids stay distinct exactly when no renamed service meets another one under its new id. */
  lemma MigrateKeepsIdsIff(s: Store)
    requires s.services.Some? && DistinctIds(s.services.value)
    ensures DistinctIds(Migrate(s).services.value) <==>
            forall i :: 0 <= i < |s.services.value| && ToRename(s.jsc, s.services.value[i].id) ==>
              !HasService(s.services.value, Renamed(s.services.value[i].id))
  {
    var before, after := s.services.value, Migrate(s).services.value;
    forall i, j | 0 <= i < |before| && 0 <= j < |before| && i != j
      ensures after[i].id == after[j].id ==>
                (ToRename(s.jsc, before[i].id) && before[j].id == Renamed(before[i].id)) ||
                (ToRename(s.jsc, before[j].id) && before[i].id == Renamed(before[j].id))
      ensures ToRename(s.jsc, before[i].id) && before[j].id == Renamed(before[i].id) ==> after[i].id == after[j].id
    {
      RenamedSuffix(before[i].id, before[j].id);
    }
    forall i | 0 <= i < |before| && ToRename(s.jsc, before[i].id) && HasService(before, Renamed(before[i].id))
      ensures !DistinctIds(after)
    {
      var j :| 0 <= j < |before| && before[j].id == Renamed(before[i].id);
      RenamedSuffix(before[i].id, before[i].id);
      assert i != j;
      assert after[i].id == after[j].id;
    }
  }

  lemma MigratedItem(s: Store, x: Item) returns (y: Item)
    requires x in Migrate(s).jsc
    ensures y in s.jsc && x == RenamedItem(y) && x.ref == y.ref
    ensures y.entry.serviceId.Some? && IsLegacy(y.entry.serviceId.value) ==> ToRename(s.jsc, y.entry.serviceId.value)
  {
    var i :| 0 <= i < |s.jsc| && Migrate(s).jsc[i] == x;
    y := s.jsc[i];
  }

  lemma MigratedService(s: Store, v: Service) returns (w: Service)
    requires s.services.Some? && v in Migrate(s).services.value
    ensures w in s.services.value && v == RenamedService(s.jsc, w)
  {
    var i :| 0 <= i < |s.services.value| && Migrate(s).services.value[i] == v;
    w := s.services.value[i];
  }

  lemma UsedIsTaken(s: Store, x: Item, v: Service)
    ensures x in s.vtc || x in s.jsc ==> (x.entry.serviceId.Some? ==> Taken(s, x.entry.serviceId.value))
    ensures s.services.Some? && v in s.services.value ==> Taken(s, v.id)
  {
    assert x in s.vtc || x in s.jsc ==> x in s.vtc + s.jsc;
  }

  lemma RenamedFits(s: Store, y: Item, w: Service)
    requires Inv(s) && Fresh(s, MigrateIds) && w in s.services.value && y in s.vtc + s.jsc
    ensures y in s.jsc ==> Fits(RenamedItem(y), RenamedService(s.jsc, w))
    ensures y in s.vtc ==> Fits(y, RenamedService(s.jsc, w))
  {
    assert Fits(y, w);
    UsedIsTaken(s, y, w);
    if y.entry.serviceId.Some? {
      RenamedSuffix(y.entry.serviceId.value, w.id);
      if y in s.jsc {
        var i :| 0 <= i < |s.jsc| && s.jsc[i] == y;
        assert IsLegacy(y.entry.serviceId.value) ==> ToRename(s.jsc, y.entry.serviceId.value);
      }
      if y in s.vtc && ToRename(s.jsc, w.id) && y.entry.serviceId == Some(w.id) {
        var i :| 0 <= i < |s.jsc| && s.jsc[i].entry.serviceId == Some(w.id);
        assert SameService(y, s.jsc[i]);
      }
    }
  }

  lemma RenamedOwns(s: Store, x: Item, y: Item)
    requires Inv(s) && Fresh(s, MigrateIds) && x in s.vtc + s.jsc && y in s.jsc
    ensures x in s.jsc && SameService(RenamedItem(x), RenamedItem(y)) ==> x.ref == y.ref
    ensures x in s.vtc ==> !SameService(x, RenamedItem(y))
  {
    UsedIsTaken(s, x, Service("", "", ""));
    UsedIsTaken(s, y, Service("", "", ""));
    if x.entry.serviceId.Some? && y.entry.serviceId.Some? {
      var a, b := x.entry.serviceId.value, y.entry.serviceId.value;
      RenamedSuffix(a, b);
      var j :| 0 <= j < |s.jsc| && s.jsc[j] == y;
      assert IsLegacy(b) ==> ToRename(s.jsc, b);
      if x in s.jsc {
        var i :| 0 <= i < |s.jsc| && s.jsc[i] == x;
        assert IsLegacy(a) ==> ToRename(s.jsc, a);
        assert a == b ==> SameService(x, y);
      }
    }
  }

  lemma MigrateKeepsInv(s: Store)
    requires Inv(s) && Fresh(s, MigrateIds)
    ensures Inv(Migrate(s))
  {
    var t := Migrate(s);
    MigrateKeepsIdsIff(s);
    forall v | v in t.services.value ensures (forall x :: x in t.jsc ==> Fits(x, v)) && (forall x :: x in t.vtc ==> Fits(x, v)) {
      var w := MigratedService(s, v);
      forall x | x in t.jsc ensures Fits(x, v) {
        var y := MigratedItem(s, x);
        RenamedFits(s, y, w);
      }
      forall x | x in t.vtc ensures Fits(x, v) {
        RenamedFits(s, x, w);
      }
    }
    MigrateKeepsOwners(s);
  }

  lemma MigrateKeepsOwners(s: Store)
    requires Inv(s) && Fresh(s, MigrateIds)
    ensures OwnServices(Migrate(s)) && DistinctRefs(Migrate(s).jsc)
  {
    var t := Migrate(s);
    forall x, y | x in t.jsc && y in t.jsc && SameService(x, y) ensures x.ref == y.ref {
      var p := MigratedItem(s, x);
      var q := MigratedItem(s, y);
      RenamedOwns(s, p, q);
    }
    forall x, y | x in t.vtc && y in t.jsc ensures !SameService(x, y) {
      var q := MigratedItem(s, y);
      RenamedOwns(s, x, q);
    }
    assert forall i :: 0 <= i < |s.jsc| ==> t.jsc[i].ref == s.jsc[i].ref;
  }

  lemma SuffixOf(stem: string)
    ensures IsLegacy(stem + "-jsc-vp") && Renamed(stem + "-jsc-vp") == stem + "-vtjsc-vp"
  {
    var id := stem + "-jsc-vp";
    assert id[|id| - |LEGACY_SUFFIX|..] == LEGACY_SUFFIX && id[..|id| - |LEGACY_SUFFIX|] == stem;
  }

  /** An entry under an id with the old suffix gets the id with the new one, and no other entry changes. */
  lemma MigratedEntry(s: Store, i: nat, stem: string)
    requires i < |s.jsc|
    ensures i < |Migrate(s).jsc| && Migrate(s).vtc == s.vtc
    ensures s.jsc[i].entry.serviceId == Some(stem + "-jsc-vp") ==>
              Migrate(s).jsc[i] == Item(s.jsc[i].ref, s.jsc[i].entry.(serviceId := Some(stem + "-vtjsc-vp")))
    ensures Migrate(s).jsc[i] != s.jsc[i] ==> exists x :: s.jsc[i].entry.serviceId == Some(x + "-jsc-vp")
  {
    SuffixOf(stem);
    var id := s.jsc[i].entry.serviceId;
    if id.Some? && IsLegacy(id.value) {
      assert id.value == id.value[..|id.value| - |LEGACY_SUFFIX|] + "-jsc-vp";
    }
  }

  /** The service under such an id follows, if an entry of the VTJSCs names it, and no other service changes. */
  lemma MigratedAnnouncement(s: Store, k: nat, stem: string)
    requires s.services.Some? && k < |s.services.value|
    ensures Migrate(s).services.Some? && k < |Migrate(s).services.value|
    ensures var v, w := s.services.value[k], Migrate(s).services.value[k];
            && (v.id == stem + "-jsc-vp" ==>
                  w == if exists x :: x in s.jsc && x.entry.serviceId == Some(v.id)
                       then Service(stem + "-vtjsc-vp", v.endpoint, v.kind) else v)
            && (w != v ==> exists x :: v.id == x + "-jsc-vp")
  {
    SuffixOf(stem);
    var v := s.services.value[k];
    if x :| x in s.jsc && x.entry.serviceId == Some(v.id) {
      var i :| 0 <= i < |s.jsc| && s.jsc[i] == x;
    }
    if IsLegacy(v.id) {
      assert v.id == v.id[..|v.id| - |LEGACY_SUFFIX|] + "-jsc-vp";
    }
  }

  /** Once migrated, a store stays as it is. */
  lemma MigrateIsIdempotent(s: Store)
    ensures Migrate(Migrate(s)) == Migrate(s)
  {
    var t := Migrate(s);
    forall i | 0 <= i < |t.jsc|
      ensures t.jsc[i].entry.serviceId.Some? ==> !IsLegacy(t.jsc[i].entry.serviceId.value)
    {
      if s.jsc[i].entry.serviceId.Some? {
        RenamedSuffix(s.jsc[i].entry.serviceId.value, "");
      }
    }
    assert Migrate(t).jsc == t.jsc;
    if s.services.Some? {
      assert Migrate(t).services.value == t.services.value;
    }
  }

  // ---------------------------------------------------------------- every operation keeps the invariant

  lemma SaveKeepsInv(s: Store, key: Key, ref: string, credential: Option<string>, presentation: string, serviceId: string)
    requires Inv(s) && Fresh(s, SaveEntry(key, ref, credential, presentation, serviceId))
    ensures Inv(Save(s, key, ref, credential, presentation, serviceId))
  {
    var t := Save(s, key, ref, credential, presentation, serviceId);
    var c := Cleared(s, key, ref, credential);
    ClearKeepsInv(s, key, ref, credential);
    var x := Metadata(t, key)[|Metadata(t, key)| - 1];
    assert Announcement(x.entry) == Some(Service(serviceId, presentation, LINKED_VP));
    AddFits(c, key, x);
    AddOwns(c, key, x);
    assert t == Added(c, key, x);
  }

  /** Operation `i` is fresh and leads from store `i` to the next one. */
  ghost predicate Follows(ops: seq<Op>, stores: seq<Store>, i: nat)
    requires i < |ops| && i + 1 < |stores|
  {
    Fresh(stores[i], ops[i]) && stores[i + 1] == Apply(stores[i], ops[i])
  }

  /** The stores that a sequence of operations passes. */
  ghost predicate IsRun(ops: seq<Op>, stores: seq<Store>) {
    && |stores| == |ops| + 1 && Inv(stores[0])
    && forall i: nat :: i < |ops| ==> Follows(ops, stores, i)
  }

  /**
   * Main result. Over any sequence of operations, with fresh ids for new entries and for renamed ones, no
   * two services share an id, no two entries name one service, and a service under the id of an entry is
   * the announcement of exactly that entry's presentation.
   */
  lemma {:induction false} OperationsKeepInv(ops: seq<Op>, stores: seq<Store>, n: nat)
    requires IsRun(ops, stores) && n < |stores|
    ensures Inv(stores[n])
  {
    if n > 0 {
      OperationsKeepInv(ops, stores, n - 1);
      assert Follows(ops, stores, n - 1);
      ApplyKeepsInv(stores[n - 1], ops[n - 1]);
    }
  }

  lemma ApplyKeepsInv(s: Store, op: Op)
    requires Inv(s) && Fresh(s, op)
    ensures Inv(Apply(s, op))
  {
    match op
    case SaveEntry(key, ref, credential, presentation, serviceId) => SaveKeepsInv(s, key, ref, credential, presentation, serviceId);
    case RemoveEntry(key, id) =>
      FindFinds(Metadata(s, key), Some(id), id);
      var found := Find(Metadata(s, key), Some(id), id);
      if found.Some? {
        RemoveKeepsInv(s, key, found.value);
      }
    case DetachEntries(refs) => DetachKeepsInv(s, refs);
    case ReattachEntry(ref) => ReattachKeepsInv(s, ref);
    case MigrateIds => MigrateKeepsInv(s);
    case SaveText(ref, text) => TextKeepsInv(s, ref, text);
  }

  // ---------------------------------------------------------------- detach and reattach

  lemma {:induction false} NothingDropped(services: seq<Service>, id: string)
    requires forall i :: 0 <= i < |services| ==> services[i].id != id
    ensures Dropped(services, Some(id)) == services
  {
    if services != [] {
      NothingDropped(services[1..], id);
    }
  }

  /** The entry of a reference names this service id. */
  predicate Names(s: Store, ref: string, id: string) {
    Get(s.jsc, ref).Some? && Get(s.jsc, ref).value.serviceId == Some(id)
  }

  ghost predicate NamedBy(s: Store, refs: seq<string>, id: string) {
    exists r :: r in refs && Names(s, r, id)
  }

  /** The service of a detached reference. */
  ghost predicate WasAnnounced(s: Store, ref: string)
    requires s.services.Some?
  {
    exists v :: v in s.services.value && Names(s, ref, v.id)
  }

  /** Detaching takes out exactly the services of the references it reports. */
  lemma {:induction false} DetachTakesOut(s: Store, refs: seq<string>)
    requires s.services.Some? && DistinctIds(s.services.value)
    ensures var t := Detach(s, refs);
            && t.jsc == s.jsc && t.services.Some? && DistinctIds(t.services.value)
            && (forall v :: v in t.services.value <==> v in s.services.value && !NamedBy(s, DetachedRefs(s, refs), v.id))
    ensures forall r :: r in DetachedRefs(s, refs) ==> WasAnnounced(s, r)
    decreases |refs|
  {
    if refs != [] {
      var front, last := refs[..|refs| - 1], refs[|refs| - 1];
      DetachTakesOut(s, front);
      DetachOneTakesOut(Detach(s, front), last);
      var t := Detach(s, refs);
      var before, now := DetachedRefs(s, front), DetachedRefs(s, refs);
      forall v ensures v in t.services.value <==> v in s.services.value && !NamedBy(s, now, v.id) {
        if v in Detach(s, front).services.value && Names(s, last, v.id) {
          assert HasService(Detach(s, front).services.value, v.id) && last in now;
        }
        assert NamedBy(s, now, v.id) <==> NamedBy(s, before, v.id) || (last in now && Names(s, last, v.id));
      }
      if Announced(Detach(s, front), last) {
        var i :| 0 <= i < |Detach(s, front).services.value| && Names(s, last, Detach(s, front).services.value[i].id);
        assert Detach(s, front).services.value[i] in Detach(s, front).services.value;
      }
    }
  }

  lemma DetachOneTakesOut(s: Store, ref: string)
    requires s.services.Some? && DistinctIds(s.services.value)
    ensures var t := DetachOne(s, ref);
            && t.jsc == s.jsc && t.services.Some? && DistinctIds(t.services.value)
            && (forall v :: v in t.services.value <==> v in s.services.value && !Names(s, ref, v.id))
  {
    if Get(s.jsc, ref).Some? {
      DroppedMembers(s.services.value, Get(s.jsc, ref).value.serviceId);
    }
  }

  lemma DetachedIsGone(s: Store, refs: seq<string>, r: string, id: string)
    requires s.services.Some? && DistinctIds(s.services.value) && r in DetachedRefs(s, refs) && Names(s, r, id)
    ensures Detach(s, refs).services.Some? && !HasService(Detach(s, refs).services.value, id)
  {
    DetachTakesOut(s, refs);
    assert NamedBy(s, DetachedRefs(s, refs), id);
    var services := Detach(s, refs).services.value;
    forall i | 0 <= i < |services| ensures services[i].id != id {
      assert services[i] in services;
    }
  }

  /** No reference is detached twice, and no two of them name one service. */
  lemma {:induction false} DetachedOnce(s: Store, refs: seq<string>, q: string, r: string, id: string)
    requires s.services.Some? && DistinctIds(s.services.value)
    requires q in DetachedRefs(s, refs) && r in DetachedRefs(s, refs) && Names(s, q, id) && Names(s, r, id)
    ensures q == r
    decreases |refs|
  {
    var front := refs[..|refs| - 1];
    DetachTakesOut(s, front);
    if q in DetachedRefs(s, front) {
      DetachedIsGone(s, front, q, id);
    }
    if r in DetachedRefs(s, front) {
      DetachedIsGone(s, front, r, id);
      if q in DetachedRefs(s, front) {
        DetachedOnce(s, front, q, r, id);
      }
    }
  }

  /** The list adds what each reference announces, when no service stands in the way. */
  lemma {:induction false} ReattachAdds(s: Store, refs: seq<string>)
    requires s.services.Some? && DistinctIds(s.services.value)
    requires forall r, id :: r in refs && Names(s, r, id) ==> !HasService(s.services.value, id)
    requires forall q, r, id :: q in refs && r in refs && Names(s, q, id) && Names(s, r, id) ==> q == r
    ensures var t := ReattachAll(s, refs);
            && t.jsc == s.jsc && t.services.Some? && DistinctIds(t.services.value)
            && (forall v :: v in t.services.value <==> v in s.services.value || AnnouncedBy(s, refs, v))
    decreases |refs|
  {
    if refs != [] {
      var front, last := refs[..|refs| - 1], refs[|refs| - 1];
      assert refs == front + [last];
      ReattachAdds(s, front);
      var t, u := ReattachAll(s, front), ReattachAll(s, refs);
      ReattachOne(s, t, front, last);
      forall v ensures v in u.services.value <==> v in s.services.value || AnnouncedBy(s, refs, v) {
        assert AnnouncedBy(s, refs, v) <==> AnnouncedBy(s, front, v) || Announces(s, last, v);
      }
    }
  }

  predicate Announces(s: Store, ref: string, v: Service) {
    Get(s.jsc, ref).Some? && Announcement(Get(s.jsc, ref).value) == Some(v)
  }

  ghost predicate AnnouncedBy(s: Store, refs: seq<string>, v: Service) {
    exists r :: r in refs && Announces(s, r, v)
  }

  lemma ReattachOne(s: Store, t: Store, front: seq<string>, last: string)
    requires s.services.Some? && t.services.Some? && DistinctIds(t.services.value) && t.jsc == s.jsc
    requires forall v :: v in t.services.value <==> v in s.services.value || AnnouncedBy(s, front, v)
    requires forall id :: Names(s, last, id) ==> !HasService(s.services.value, id)
    requires forall q, id :: q in front && Names(s, q, id) && Names(s, last, id) ==> q == last
    ensures var u := Reattach(t, last);
            && u.jsc == s.jsc && u.services.Some? && DistinctIds(u.services.value)
            && (forall v :: v in u.services.value <==> v in t.services.value || Announces(s, last, v))
  {
    var e := Get(s.jsc, last);
    if e.Some? && Announcement(e.value).Some? {
      var id, services := e.value.serviceId.value, t.services.value;
      assert Names(s, last, id);
      if HasService(services, id) {
        var i :| 0 <= i < |services| && services[i].id == id;
        assert services[i] in services;
        assert services[i] !in s.services.value by {
          assert !HasService(s.services.value, id);
        }
        var q :| q in front && Announces(s, q, services[i]);
        assert Names(s, q, id);
      }
    }
  }

  lemma {:induction false} CountOfDistinct(services: seq<Service>, v: Service)
    requires DistinctIds(services)
    ensures multiset(services)[v] == if v in services then 1 else 0
  {
    if services != [] {
      assert services == [services[0]] + services[1..];
      CountOfDistinct(services[1..], v);
    }
  }

  lemma SameServicesIff(a: seq<Service>, b: seq<Service>)
    requires DistinctIds(a) && DistinctIds(b)
    ensures multiset(a) == multiset(b) <==> forall v :: v in a <==> v in b
  {
    forall v ensures multiset(a)[v] == (if v in a then 1 else 0) && multiset(b)[v] == (if v in b then 1 else 0) {
      CountOfDistinct(a, v);
      CountOfDistinct(b, v);
    }
    if multiset(a) == multiset(b) {
      forall v ensures v in a <==> v in b {
        assert v in multiset(a) <==> v in multiset(b);
      }
    }
  }

  /** The service under the reference's id is the announcement of its entry. */
  ghost predicate AnnouncesOwn(s: Store, ref: string)
    requires s.services.Some?
  {
    exists v :: v in s.services.value && Announces(s, ref, v)
  }

  /**
   * Detaching a list of references and attaching those that were detached again, in any order, gives back
   * the same services exactly when each of those services was the announcement of its entry.
   */
  lemma DetachThenReattachIff(s: Store, refs: seq<string>, back: seq<string>)
    requires s.services.Some? && DistinctIds(s.services.value)
    requires forall r :: r in back <==> r in DetachedRefs(s, refs)
    ensures ReattachAll(Detach(s, refs), back).services.Some?
    ensures multiset(ReattachAll(Detach(s, refs), back).services.value) == multiset(s.services.value) <==>
            forall r :: r in DetachedRefs(s, refs) ==> AnnouncesOwn(s, r)
  {
    var t := Detach(s, refs);
    DetachTakesOut(s, refs);
    forall r, id | r in back && Names(t, r, id) ensures !HasService(t.services.value, id) {
      DetachedIsGone(s, refs, r, id);
    }
    forall q, r, id | q in back && r in back && Names(t, q, id) && Names(t, r, id) ensures q == r {
      DetachedOnce(s, refs, q, r, id);
    }
    ReattachAdds(t, back);
    var u := ReattachAll(t, back);
    SameServicesIff(u.services.value, s.services.value);
    if forall v :: v in u.services.value <==> v in s.services.value {
      BackMeansOwn(s, t, u, refs, back);
    }
    if forall r :: r in DetachedRefs(s, refs) ==> AnnouncesOwn(s, r) {
      OwnMeansBack(s, t, u, refs, back);
    }
  }

  lemma BackMeansOwn(s: Store, t: Store, u: Store, refs: seq<string>, back: seq<string>)
    requires s.services.Some? && t.services.Some? && u.services.Some? && t.jsc == s.jsc
    requires DistinctIds(s.services.value) && forall r :: r in back <==> r in DetachedRefs(s, refs)
    requires forall v :: v in t.services.value <==> v in s.services.value && !NamedBy(s, DetachedRefs(s, refs), v.id)
    requires forall v :: v in u.services.value <==> v in t.services.value || AnnouncedBy(t, back, v)
    requires forall v :: v in u.services.value <==> v in s.services.value
    ensures forall r :: r in DetachedRefs(s, refs) ==> AnnouncesOwn(s, r)
  {
    DetachTakesOut(s, refs);
    forall r | r in DetachedRefs(s, refs) ensures AnnouncesOwn(s, r) {
      assert WasAnnounced(s, r);
      var v :| v in s.services.value && Names(s, r, v.id);
      assert NamedBy(s, DetachedRefs(s, refs), v.id);
      assert v in u.services.value && v !in t.services.value;
      var q :| q in back && Announces(t, q, v);
      assert Names(s, q, v.id);
      DetachedOnce(s, refs, q, r, v.id);
    }
  }

  lemma OwnMeansBack(s: Store, t: Store, u: Store, refs: seq<string>, back: seq<string>)
    requires s.services.Some? && t.services.Some? && u.services.Some? && t.jsc == s.jsc
    requires DistinctIds(s.services.value) && forall r :: r in back <==> r in DetachedRefs(s, refs)
    requires forall v :: v in t.services.value <==> v in s.services.value && !NamedBy(s, DetachedRefs(s, refs), v.id)
    requires forall v :: v in u.services.value <==> v in t.services.value || AnnouncedBy(t, back, v)
    requires forall r :: r in DetachedRefs(s, refs) ==> AnnouncesOwn(s, r)
    ensures forall v :: v in u.services.value <==> v in s.services.value
  {
    forall v | AnnouncedBy(t, back, v) ensures v in s.services.value {
      var r :| r in back && Announces(t, r, v);
      assert AnnouncesOwn(s, r);
    }
    forall v | v in s.services.value && v !in t.services.value ensures AnnouncedBy(t, back, v) {
      var r :| r in DetachedRefs(s, refs) && Names(s, r, v.id);
      assert AnnouncesOwn(s, r);
      var w :| w in s.services.value && Announces(s, r, w);
      assert w.id == v.id;
      SameIdSameService(s.services.value, v, w);
      assert Announces(t, r, v);
    }
  }

  lemma SameIdSameService(services: seq<Service>, v: Service, w: Service)
    requires DistinctIds(services) && v in services && w in services && v.id == w.id
    ensures v == w
  {
  }

  /** Under the invariant they always are announcements, so the services come back. */
  lemma DetachThenReattach(s: Store, refs: seq<string>, back: seq<string>)
    requires Inv(s) && forall r :: r in back <==> r in DetachedRefs(s, refs)
    ensures ReattachAll(Detach(s, refs), back).services.Some?
    ensures multiset(ReattachAll(Detach(s, refs), back).services.value) == multiset(s.services.value)
  {
    DetachTakesOut(s, refs);
    forall r | r in DetachedRefs(s, refs) ensures AnnouncesOwn(s, r) {
      assert WasAnnounced(s, r);
      var v :| v in s.services.value && Names(s, r, v.id);
      GetFinds(s.jsc, r);
      assert Fits(Item(r, Get(s.jsc, r).value), v);
      assert Announces(s, r, v);
    }
    DetachThenReattachIff(s, refs, back);
  }

  // ---------------------------------------------------------------- type metadata

  /** The entry of a reference carries the text. */
  predicate HoldsText(s: Store, ref: string, text: string) {
    Get(s.jsc, ref).Some? && Get(s.jsc, ref).value.typeMetadata == Some(text)
  }

  /** An entry of the new list with the text, and the list has no other entry of that reference. */
  lemma TextFound(t: Store, x: Item, ref: string, text: string)
    requires DistinctRefs(t.jsc) && x in t.jsc && x.ref == ref && x.entry.typeMetadata == Some(text)
    ensures HoldsText(t, ref, text)
  {
    GetFinds(t.jsc, ref);
    assert HasRef(t.jsc, ref);
  }

  lemma SaveKeepsText(s: Store, key: Key, ref: string, credential: Option<string>, presentation: string, serviceId: string,
                      other: string, text: string)
    requires HoldsText(s, other, text) && DistinctRefs(s.jsc)
    requires DistinctRefs(Save(s, key, ref, credential, presentation, serviceId).jsc)
    requires HasRef(Save(s, key, ref, credential, presentation, serviceId).jsc, other)
    ensures HoldsText(Save(s, key, ref, credential, presentation, serviceId), other, text)
  {
    var t := Save(s, key, ref, credential, presentation, serviceId);
    GetFinds(s.jsc, other);
    GetFinds(t.jsc, other);
    if key == Jsc {
      var found := Find(s.jsc, credential, ref);
      FindFinds(s.jsc, credential, ref);
      if found.Some? {
        WithoutMembers(s.jsc, found.value.ref);
      }
      var x := Item(other, Get(s.jsc, other).value);
      if x in t.jsc {
        TextFound(t, x, other, text);
      } else {
        var y := Item(other, Get(t.jsc, other).value);
        assert y == t.jsc[|t.jsc| - 1];
        TextFound(t, y, other, text);
      }
    }
  }

  /** A stored text never changes while its entry exists: no operation replaces it. */
  lemma ApplyKeepsText(s: Store, op: Op, ref: string, text: string)
    requires Inv(s) && Fresh(s, op) && HoldsText(s, ref, text) && HasRef(Apply(s, op).jsc, ref)
    ensures HoldsText(Apply(s, op), ref, text)
  {
    var t := Apply(s, op);
    ApplyKeepsInv(s, op);
    GetFinds(s.jsc, ref);
    var x := Item(ref, Get(s.jsc, ref).value);
    match op
    case SaveEntry(key, saved, credential, presentation, serviceId) =>
      SaveKeepsText(s, key, saved, credential, presentation, serviceId, ref, text);
    case RemoveEntry(key, id) =>
      GetFinds(t.jsc, ref);
      var found := Find(Metadata(s, key), Some(id), id);
      if found.Some? {
        WithoutMembers(Metadata(s, key), found.value.ref);
      }
      TextFound(t, x, ref, text);
    case DetachEntries(refs) => DetachKeepsInv(s, refs);
    case ReattachEntry(_) =>
    case MigrateIds =>
      var i :| 0 <= i < |s.jsc| && s.jsc[i] == x;
      assert t.jsc[i] in t.jsc;
      TextFound(t, t.jsc[i], ref, text);
    case SaveText(_, _) =>
      var i :| 0 <= i < |s.jsc| && s.jsc[i] == x;
      assert t.jsc[i] in t.jsc;
      TextFound(t, t.jsc[i], ref, text);
  }

  /** Main result: over any run, the text of a reference stays the same for as long as its entry exists. */
  lemma {:induction false} TextNeverChanges(ops: seq<Op>, stores: seq<Store>, m: nat, n: nat, ref: string, text: string)
    requires IsRun(ops, stores) && m <= n < |stores|
    requires HoldsText(stores[m], ref, text) && forall i :: m <= i <= n ==> HasRef(stores[i].jsc, ref)
    ensures HoldsText(stores[n], ref, text)
    decreases n
  {
    if m < n {
      TextNeverChanges(ops, stores, m, n - 1, ref, text);
      OperationsKeepInv(ops, stores, n - 1);
      assert Follows(ops, stores, n - 1);
      ApplyKeepsText(stores[n - 1], ops[n - 1], ref, text);
    }
  }

  // ---------------------------------------------------------------- what a save and a removal leave

  /** The other services: those under another id than the entry that goes, if one does. */
  predicate StaysBeside(gone: Option<Item>, v: Service) {
    gone.None? || gone.value.entry.serviceId != Some(v.id)
  }

  /** No entry but the one that goes is lost, and the other metadata are untouched. */
  ghost predicate OthersStay(s: Store, t: Store, key: Key, gone: Option<Item>) {
    && Metadata(t, if key == Vtc then Jsc else Vtc) == Metadata(s, if key == Vtc then Jsc else Vtc)
    && (forall x :: x in Metadata(s, key) && (gone.Some? ==> x.ref != gone.value.ref) ==> x in Metadata(t, key))
  }

  /**
   * A save leaves an entry with the credential, the presentation and the service id, announced by a linked
   * presentation of the document, if that lists services. The entry it replaces, if it finds one, is gone
   * with its service; its text stays with the same reference; everything else stays.
   */
  lemma SaveLeaves(s: Store, key: Key, ref: string, credential: Option<string>, presentation: string, serviceId: string)
    requires DistinctRefs(Metadata(s, key))
    ensures var t := Save(s, key, ref, credential, presentation, serviceId);
            var gone := Find(Metadata(s, key), credential, ref);
            var text := if Get(Metadata(s, key), ref).Some? then Get(Metadata(s, key), ref).value.typeMetadata else None;
            && Item(ref, Entry(credential, Some(presentation), Some(serviceId), text, None)) in Metadata(t, key)
            && OthersStay(s, t, key, gone)
            && (forall x :: x in Metadata(t, key) && x.ref != ref ==> x in Metadata(s, key))
            && (gone.Some? && gone.value.ref != ref ==> !HasRef(Metadata(t, key), gone.value.ref))
            && (t.services.Some? <==> s.services.Some?)
            && (s.services.Some? ==>
                  forall v :: v in t.services.value <==>
                    v == Service(serviceId, presentation, "LinkedVerifiablePresentation") || (v in s.services.value && StaysBeside(gone, v)))
  {
    var items := Metadata(s, key);
    var gone := Find(items, credential, ref);
    GetFinds(items, ref);
    FindFinds(items, credential, ref);
    if gone.Some? {
      WithoutMembers(items, gone.value.ref);
      if s.services.Some? {
        DroppedMembers(s.services.value, gone.value.entry.serviceId);
      }
    }
  }

  /** A removal takes out the entry it finds and its service, and nothing else; without one it changes nothing. */
  lemma RemoveLeaves(s: Store, key: Key, id: string)
    requires DistinctRefs(Metadata(s, key))
    ensures var t := Remove(s, key, id);
            var gone := Find(Metadata(s, key), Some(id), id);
            && (gone.None? ==> t == s)
            && OthersStay(s, t, key, gone)
            && (gone.Some? ==> !HasRef(Metadata(t, key), gone.value.ref))
            && (forall x :: x in Metadata(t, key) ==> x in Metadata(s, key))
            && (t.services.Some? <==> s.services.Some?)
            && (s.services.Some? ==>
                  forall v :: v in t.services.value <==> v in s.services.value && StaysBeside(gone, v))
  {
    var items := Metadata(s, key);
    var gone := Find(items, Some(id), id);
    FindFinds(items, Some(id), id);
    if gone.Some? {
      WithoutMembers(items, gone.value.ref);
      if s.services.Some? {
        DroppedMembers(s.services.value, gone.value.entry.serviceId);
      }
    }
  }

  // ---------------------------------------------------------------- what a save replaces

  /**
   * A save of a known reference leaves the entries of all other references alone. A save of a new one
   * leaves all entries alone exactly when none matches the id of the saved credential; a credential
   * without an id matches every entry whose credential or presentation has none.
   */
  lemma SaveReplacesOnlyIff(s: Store, key: Key, ref: string, credential: Option<string>, presentation: string, serviceId: string)
    requires DistinctRefs(Metadata(s, key))
    ensures var items, now := Metadata(s, key), Metadata(Save(s, key, ref, credential, presentation, serviceId), key);
            && (HasRef(items, ref) ==> forall x :: x in items && x.ref != ref ==> x in now)
            && (!HasRef(items, ref) ==>
                  ((forall x :: x in items ==> x in now) <==>
                     (forall x :: x in items ==> x.entry.credential != credential && x.entry.presentation != credential)))
  {
    var items := Metadata(s, key);
    var found := Find(items, credential, ref);
    FindFinds(items, credential, ref);
    if found.Some? {
      WithoutMembers(items, found.value.ref);
    }
    if !HasRef(items, ref) && found.Some? {
      assert found.value in items && Matches(found.value, credential);
      assert found.value !in Without(items, found.value.ref);
      assert found.value.ref != ref;
    }
  }

  // ---------------------------------------------------------------- the record

  /** The DID record whose metadata and document the functions update; `updates` counts the publications. */
  class TrustCredentialStore {
    var vtc: seq<Item>
    var jsc: seq<Item>
    var services: Option<seq<Service>>
    var updates: nat

    constructor ()
      ensures View() == Store([], [], None) && updates == 0
    {
      vtc, jsc, services, updates := [], [], None, 0;
    }

    function View(): Store
      reads this
    {
      Store(vtc, jsc, services)
    }

    method SetMetadata(key: Key, items: seq<Item>)
      modifies this`vtc, this`jsc
      ensures View() == WithMetadata(old(View()), key, items)
    {
      if key == Vtc {
        vtc := items;
      } else {
        jsc := items;
      }
    }

    method FilterServices(id: Option<string>)
      modifies this`services
      ensures View() == DropServices(old(View()), id)
    {
      if services.Some? {
        services := Some(Dropped(services.value, id));
      }
    }

    /** `saveMetadataEntry`; a credential whose schema has no id is refused. */
    method SaveMetadataEntry(key: Key, ref: string, credential: Option<string>, presentation: string, serviceId: string)
      returns (thrown: bool)
      modifies this
      ensures thrown == (ref == "")
      ensures View() == if thrown then old(View()) else Save(old(View()), key, ref, credential, presentation, serviceId)
      ensures updates == old(updates) + if thrown then 0 else 1
    {
      if ref == "" { return true; }
      var record := Metadata(View(), key);
      var found := Find(record, credential, ref);
      var typeMetadata := None;
      if found.Some? {
        if found.value.ref == ref {
          typeMetadata := found.value.entry.typeMetadata;
        }
        FilterServices(found.value.entry.serviceId);
        record := Without(record, found.value.ref);
      }
      record := record + [Item(ref, Entry(credential, Some(presentation), Some(serviceId), typeMetadata, None))];
      if services.Some? {
        services := Some(services.value + [Service(serviceId, presentation, LINKED_VP)]);
      }
      SetMetadata(key, record);
      updates := updates + 1;
      return false;
    }

    /** `removeTrustCredential` with `deleteMetadataEntry`. */
    method RemoveTrustCredential(key: Key, id: string) returns (ref: Option<string>)
      modifies this
      ensures View() == Remove(old(View()), key, id)
      ensures updates == old(updates) + if ref.Some? then 1 else 0
      ensures ref.Some? <==> Find(Metadata(old(View()), key), Some(id), id).Some?
      ensures ref.Some? ==> HasRef(Metadata(old(View()), key), ref.value) && Get(Metadata(View(), key), ref.value).None?
    {
      var items := Metadata(View(), key);
      var found := Find(items, Some(id), id);
      FindFinds(items, Some(id), id);
      if found.None? { return None; }
      FilterServices(found.value.entry.serviceId);
      SetMetadata(key, Without(items, found.value.ref));
      updates := updates + 1;
      WithoutMembers(items, found.value.ref);
      GetFinds(Metadata(View(), key), found.value.ref);
      return Some(found.value.ref);
    }

    /** `detachVtjscPublications`: the references whose service went, and one publication if there are any. */
    method DetachVtjscPublications(refs: seq<string>) returns (detached: seq<string>)
      modifies this
      ensures View() == Detach(old(View()), refs) && detached == DetachedRefs(old(View()), refs)
      ensures forall r :: r in detached ==> r in refs && Get(jsc, r).Some?
      ensures detached == [] ==> View() == old(View())
      ensures updates == old(updates) + if detached == [] then 0 else 1
    {
      detached := [];
      if services.None? {
        NothingToDetach(View(), refs);
        return;
      }
      var i := 0;
      while i < |refs|
        invariant i <= |refs| && View() == Detach(old(View()), refs[..i])
        invariant detached == DetachedRefs(old(View()), refs[..i])
        invariant services.Some? && updates == old(updates) && jsc == old(jsc)
        invariant forall r :: r in detached ==> r in refs && Get(jsc, r).Some?
        invariant detached == [] ==> View() == old(View())
      {
        var ref := refs[i];
        var entry := Get(jsc, ref);
        DetachNext(old(View()), refs, i);
        if entry.Some? && entry.value.serviceId.Some? && HasService(services.value, entry.value.serviceId.value) {
          FilterServices(entry.value.serviceId);
          detached := detached + [ref];
        } else if entry.Some? {
          NoServiceToDrop(services.value, entry.value.serviceId);
        }
        i := i + 1;
      }
      assert refs[..|refs|] == refs;
      if detached != [] {
        updates := updates + 1;
      }
    }

    /** `reattachVtjscPublication`. */
    method ReattachVtjscPublication(ref: string) returns (attached: bool)
      modifies this
      ensures View() == Reattach(old(View()), ref)
      ensures attached <==> View() != old(View())
      ensures updates == old(updates) + if attached then 1 else 0
    {
      var entry := Get(jsc, ref);
      if entry.None? || entry.value.serviceId.None? || entry.value.presentation.None? { return false; }
      var present := if services.Some? then services.value else [];
      if HasService(present, entry.value.serviceId.value) { return false; }
      var service := Service(entry.value.serviceId.value, entry.value.presentation.value, LINKED_VP);
      services := Some(present + [service]);
      updates := updates + 1;
      assert |services.value| == |present| + 1;
      return true;
    }

    /** `migrateVtjscServiceIds`: entry by entry, with the first service of the old id. */
    method MigrateVtjscServiceIds()
      requires services.Some? ==> DistinctIds(services.value)
      modifies this
      ensures View() == Migrate(old(View()))
      ensures updates == old(updates) + if AnyToRename(old(jsc)) then 1 else 0
    {
      var changed := false;
      var i := 0;
      ghost var items, before := jsc, services;
      while i < |jsc|
        invariant i <= |jsc| == |items| && updates == old(updates) && vtc == old(vtc)
        invariant forall k :: 0 <= k < |items| ==> jsc[k] == if k < i then RenamedItem(items[k]) else items[k]
        invariant services.Some? == before.Some?
        invariant services.Some? ==> RenamedUpTo(items, i, before.value, services.value)
        invariant changed <==> AnyToRename(items[..i])
      {
        var serviceId := jsc[i].entry.serviceId;
        AnyStep(items, i);
        if serviceId.Some? && IsLegacy(serviceId.value) {
          if services.Some? {
            RenameOne(items, i, before.value, services.value);
            services := Some(Relabelled(services.value, serviceId.value, Renamed(serviceId.value)));
          }
          jsc := jsc[i := RenamedItem(jsc[i])];
          changed := true;
        } else if services.Some? {
          KeepOne(items, i, before.value, services.value);
        }
        i := i + 1;
      }
      assert items[..|items|] == items;
      assert jsc == Migrate(old(View())).jsc;
      if services.Some? {
        assert services.value == Migrate(old(View())).services.value;
      }
      if changed {
        updates := updates + 1;
      }
    }

    /** `saveVtjscTypeMetadata`: a stored text is never replaced, and the document is not published. */
    method SaveVtjscTypeMetadata(ref: string, text: string) returns (saved: bool)
      requires DistinctRefs(jsc)
      modifies this`jsc
      ensures View() == SaveTypeMetadata(old(View()), ref, text)
      ensures saved <==> Get(old(jsc), ref).Some? && Get(old(jsc), ref).value.typeMetadata.None?
      ensures saved ==> HoldsText(View(), ref, text)
    {
      GetFinds(jsc, ref);
      var entry := Get(jsc, ref);
      saved := entry.Some? && entry.value.typeMetadata.None?;
      if saved {
        var i := Position(jsc, ref);
        jsc := jsc[i := jsc[i].(entry := jsc[i].entry.(typeMetadata := Some(text)))];
        assert jsc[i] in jsc;
        TextFound(View(), jsc[i], ref, text);
      } else {
        assert forall k :: 0 <= k < |jsc| && jsc[k].ref == ref ==> jsc[k] in jsc;
      }
      assert jsc == SaveTypeMetadata(old(View()), ref, text).jsc;
    }
  }

  /** What the next reference of a list adds to the detachment of those before it. */
  lemma DetachNext(s: Store, refs: seq<string>, i: nat)
    requires i < |refs|
    ensures Detach(s, refs[..i + 1]) == DetachOne(Detach(s, refs[..i]), refs[i])
    ensures DetachedRefs(s, refs[..i + 1]) ==
            DetachedRefs(s, refs[..i]) + (if Announced(Detach(s, refs[..i]), refs[i]) then [refs[i]] else [])
  {
    assert refs[..i + 1][..i] == refs[..i];
  }

  lemma {:induction false} NothingToDetach(s: Store, refs: seq<string>)
    requires s.services.None?
    ensures Detach(s, refs) == s && DetachedRefs(s, refs) == []
    decreases |refs|
  {
    if refs != [] {
      NothingToDetach(s, refs[..|refs| - 1]);
    }
  }

  lemma NoServiceToDrop(services: seq<Service>, id: Option<string>)
    requires id.Some? ==> !HasService(services, id.value)
    ensures Dropped(services, id) == services
  {
    if id.Some? {
      NothingDropped(services, id.value);
    } else {
      NoneDropped(services);
    }
  }

  lemma {:induction false} NoneDropped(services: seq<Service>)
    ensures Dropped(services, None) == services
  {
    if services != [] {
      NoneDropped(services[1..]);
    }
  }

  /** The first service with the id gets another one. */
  function Relabelled(services: seq<Service>, id: string, next: string): seq<Service> {
    if services == [] then []
    else if services[0].id == id then [services[0].(id := next)] + services[1..]
    else [services[0]] + Relabelled(services[1..], id, next)
  }

  /** With at most one service of that id, it is the only one that changes. */
  lemma {:induction false} RelabelledOne(services: seq<Service>, id: string, next: string)
    requires forall i, j :: 0 <= i < j < |services| && services[i].id == id ==> services[j].id != id
    ensures |Relabelled(services, id, next)| == |services|
    ensures forall i :: 0 <= i < |services| ==>
              Relabelled(services, id, next)[i] ==
              if services[i].id == id then services[i].(id := next) else services[i]
  {
    if services != [] {
      RelabelledOne(services[1..], id, next);
      assert services == [services[0]] + services[1..];
    }
  }

  /** The services after the first `n` entries have been migrated. */
  ghost predicate RenamedUpTo(items: seq<Item>, n: nat, before: seq<Service>, now: seq<Service>)
    requires n <= |items|
  {
    && |now| == |before|
    && forall k :: 0 <= k < |before| ==> now[k] == RenamedService(items[..n], before[k])
  }

  lemma RenameOne(items: seq<Item>, n: nat, before: seq<Service>, now: seq<Service>)
    requires n < |items| && RenamedUpTo(items, n, before, now) && DistinctIds(before)
    requires items[n].entry.serviceId.Some? && IsLegacy(items[n].entry.serviceId.value)
    ensures var id := items[n].entry.serviceId.value; RenamedUpTo(items, n + 1, before, Relabelled(now, id, Renamed(id)))
  {
    var id := items[n].entry.serviceId.value;
    forall k | 0 <= k < |now|
      ensures now[k].id == id ==> now[k] == before[k]
      ensures RenamedService(items[..n + 1], before[k]) == if now[k].id == id then now[k].(id := Renamed(id)) else now[k]
    {
      RenamedSuffix(before[k].id, before[k].id);
      RenameStep(items, n, before[k].id);
    }
    RelabelledOne(now, id, Renamed(id));
  }

  /** One more entry adds its own id to those that are renamed. */
  lemma RenameStep(items: seq<Item>, n: nat, id: string)
    requires n < |items|
    ensures ToRename(items[..n + 1], id) <==>
            ToRename(items[..n], id) || (IsLegacy(id) && items[n].entry.serviceId == Some(id))
  {
    assert items[..n + 1] == items[..n] + [items[n]];
    if ToRename(items[..n], id) {
      var i :| 0 <= i < n && items[..n][i].entry.serviceId == Some(id);
      assert items[..n + 1][i].entry.serviceId == Some(id);
    }
    if IsLegacy(id) && items[n].entry.serviceId == Some(id) {
      assert items[..n + 1][n].entry.serviceId == Some(id);
    }
  }

  ghost predicate AnyToRename(items: seq<Item>) {
    exists id :: ToRename(items, id)
  }

  lemma AnyStep(items: seq<Item>, n: nat)
    requires n < |items|
    ensures AnyToRename(items[..n + 1]) <==>
            AnyToRename(items[..n]) || (items[n].entry.serviceId.Some? && IsLegacy(items[n].entry.serviceId.value))
  {
    forall id
      ensures ToRename(items[..n + 1], id) <==>
              ToRename(items[..n], id) || (IsLegacy(id) && items[n].entry.serviceId == Some(id))
    {
      RenameStep(items, n, id);
    }
    if items[n].entry.serviceId.Some? {
      RenameStep(items, n, items[n].entry.serviceId.value);
    }
    if AnyToRename(items[..n]) {
      var id :| ToRename(items[..n], id);
      RenameStep(items, n, id);
    }
  }

  /** Nothing changes for an entry whose id is of today, or that has none. */
  lemma KeepOne(items: seq<Item>, n: nat, before: seq<Service>, now: seq<Service>)
    requires n < |items| && RenamedUpTo(items, n, before, now)
    requires items[n].entry.serviceId.Some? ==> !IsLegacy(items[n].entry.serviceId.value)
    ensures RenamedUpTo(items, n + 1, before, now)
  {
    forall k | 0 <= k < |now| ensures RenamedService(items[..n + 1], before[k]) == now[k] {
      RenameStep(items, n, before[k].id);
    }
  }

  /** Where an entry is. */
  function Position(items: seq<Item>, ref: string): (i: nat)
    requires Get(items, ref).Some?
    ensures i < |items| && items[i].ref == ref && items[i].entry == Get(items, ref).value
  {
    if items[0].ref == ref then 0 else 1 + Position(items[1..], ref)
  }
}
