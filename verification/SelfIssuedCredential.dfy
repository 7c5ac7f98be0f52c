/**
 * The credentials that the agent issues to itself: signed and published once, and left alone while their
 * content, their schema and the assertion key stay the same.
 *
 * Models `publishSelfIssuedEcsPresentation`, `storedCredentialIsCurrent` and `buildIntegrityData` of
 * packages/agent-sdk/src/utils/selfIssuedEcsCredential.ts. A signature is the name of the key; the digest
 * is any function of the text.
 */
module SelfIssuedCredential {
  import opened Options
  import opened JsonText
  import CanonicalJson
  import SortKeys

  const LINKED_VP := "LinkedVerifiablePresentation"
  const SERVICE_KEY := "ecs-service"

  /** An endpoint that is no string is `None`. */
  datatype Service = Service(id: string, endpoint: Option<string>, kind: string)

  datatype Proof = Proof(signer: Option<string>, dataIntegrity: bool)

  datatype Credential = Credential(version2: bool, id: string, issuer: string, schema: string,
                                   validUntil: Option<string>, proofs: seq<Proof>)

  datatype Presentation = Presentation(id: string, credential: Credential)

  /** An entry of the `_vt/vtc` metadata. */
  datatype StoredEntry = StoredEntry(credential: Option<Credential>, presentation: Option<Presentation>,
                                     integrity: Option<string>, attached: Option<bool>)

  /**
   * The DID record: services, assertion methods and Ed25519 keys of the document, and the metadata. The
   * specification counts the signatures and the writes.
   */
  datatype State = State(services: Option<seq<Service>>, assertionMethods: seq<string>, keys: set<string>,
                         vtc: map<string, StoredEntry>, signatures: nat, writes: nat)

  /** The arguments of a call; `content` is the object that the integrity data covers. */
  datatype Input = Input(did: string, url: string, schemaKey: string, schemaId: string, schema: string,
                         content: Json, validUntil: Option<string>)

  // ---------------------------------------------------------------- the parts

  /** `buildIntegrityData`. */
  function Integrity(digest: string -> string, content: Json): string {
    digest(Render(SortKeys.SortKeysDeep(content)))
  }

  function CredentialId(i: Input): string {
    i.did + "#schemas-" + i.schemaId + "-vtc"
  }

  predicate EndsWith(s: string, suffix: string) {
    |suffix| <= |s| && s[|s| - |suffix|..] == suffix
  }

  /** The schema key without a leading `ecs-`. */
  function SchemaName(schemaKey: string): string {
    if |schemaKey| >= 4 && schemaKey[..4] == "ecs-" then schemaKey[4..] else schemaKey
  }

  function ServiceId(i: Input): string {
    i.did + "#vpr-schemas-" + SchemaName(i.schemaKey) + "-vtc-vp"
  }

  function WhoisId(i: Input): string {
    i.did + "#whois"
  }

  /** `getVerificationMethodId`: the first assertion method, if it is an Ed25519 key of the document. */
  function SigningKey(s: State): Option<string> {
    if s.assertionMethods != [] && s.assertionMethods[0] in s.keys then Some(s.assertionMethods[0]) else None
  }

  /** The signed credential and the presentation around it. */
  function Sign(i: Input, key: string): Presentation {
    Presentation(i.url, Credential(true, CredentialId(i), i.did, i.schema, i.validUntil, [Proof(Some(key), true)]))
  }

  /** `storedCredentialIsCurrent`. */
  predicate Current(s: State, i: Input, stored: Option<Credential>) {
    && stored.Some?
    && var c := stored.value;
       && c.version2 && c.proofs != []
       && (forall k :: 0 <= k < |c.proofs| ==> c.proofs[k].dataIntegrity)
       && c.issuer == i.did && c.id == CredentialId(i) && c.schema == i.schema && c.validUntil == i.validUntil
       && (forall k :: 0 <= k < |c.proofs| ==> c.proofs[k].signer.Some? && c.proofs[k].signer.value in s.assertionMethods)
  }

  /** Another entry that is not detached already serves the presentation at this URL. */
  predicate Superseded(s: State, i: Input) {
    exists k :: k in s.vtc && k != i.schema && s.vtc[k].presentation.Some? &&
      s.vtc[k].presentation.value.id == i.url && s.vtc[k].attached != Some(false)
  }

  predicate Attaches(s: State, i: Input) {
    (i.schema in s.vtc && s.vtc[i.schema].attached.Some? ==> s.vtc[i.schema].attached.value) && !Superseded(s, i)
  }

  /** Nothing has to be signed: the stored credential is current and its integrity data matches. */
  predicate UpToDate(digest: string -> string, s: State, i: Input) {
    && i.schema in s.vtc
    && s.vtc[i.schema].integrity == Some(Integrity(digest, i.content))
    && Current(s, i, s.vtc[i.schema].credential)
  }

  // ---------------------------------------------------------------- the services

  /** A linked presentation under the expected id, or one whose endpoint ends with the expected file. */
  predicate Replaced(i: Input, v: Service) {
    && v.endpoint.Some? && v.kind == LINKED_VP && v.id != WhoisId(i)
    && (v.id == ServiceId(i) || EndsWith(v.endpoint.value, "/" + i.schemaKey + "-vtc-vp.json"))
  }

  function Rewrite(i: Input, v: Service): Service {
    if Replaced(i, v) then v.(id := ServiceId(i), endpoint := Some(i.url)) else v
  }

  predicate HasId(services: seq<Service>, id: string) {
    exists k :: 0 <= k < |services| && services[k].id == id
  }

  function RewriteAll(i: Input, services: seq<Service>): seq<Service> {
    seq(|services|, k requires 0 <= k < |services| => Rewrite(i, services[k]))
  }

  /** The entry for the fragment is added when no service has that id. */
  function Announce(i: Input, services: seq<Service>): seq<Service> {
    var rewritten := RewriteAll(i, services);
    if HasId(rewritten, ServiceId(i)) then rewritten
    else rewritten + [Service(ServiceId(i), Some(i.url), LINKED_VP)]
  }

  /** The first service with the id gets the endpoint. */
  function PointTo(services: seq<Service>, id: string, url: string): seq<Service> {
    if services == [] then []
    else if services[0].id == id then [services[0].(endpoint := Some(url))] + services[1..]
    else [services[0]] + PointTo(services[1..], id, url)
  }

  function AnnounceWhois(i: Input, services: seq<Service>): seq<Service> {
    if i.schemaKey != SERVICE_KEY then services
    else if HasId(services, WhoisId(i)) then PointTo(services, WhoisId(i), i.url)
    else services + [Service(WhoisId(i), Some(i.url), LINKED_VP)]
  }

  function Published(i: Input, services: Option<seq<Service>>): seq<Service> {
    AnnounceWhois(i, Announce(i, if services.Some? then services.value else []))
  }

  /** A call throws, or returns the presentation that is stored. */
  datatype Outcome = Threw | Returned(presentation: Option<Presentation>)

  /** The call: the new state, and how it ends. */
  function Publish(digest: string -> string, s: State, i: Input, beforePublish: bool): (State, Outcome) {
    var attached := Attaches(s, i);
    if UpToDate(digest, s, i) then
      (s, if attached && !beforePublish then Threw else Returned(s.vtc[i.schema].presentation))
    else if SigningKey(s).None? then (s, Threw)
    else
      var p := Sign(i, SigningKey(s).value);
      var signed := s.(signatures := s.signatures + 1);
      if attached && !beforePublish then (signed, Threw)
      else
        var entry := StoredEntry(Some(p.credential), Some(p), Some(Integrity(digest, i.content)), Some(attached));
        (signed.(services := if attached then Some(Published(i, s.services)) else s.services,
                 vtc := s.vtc[i.schema := entry], writes := s.writes + 1), Returned(Some(p)))
  }

  // ---------------------------------------------------------------- idempotence

  /** A call that returns leaves the record up to date for the same arguments. */
  lemma ReturnLeavesUpToDate(digest: string -> string, s: State, i: Input, beforePublish: bool)
    requires Publish(digest, s, i, beforePublish).1.Returned?
    ensures var (t, outcome) := Publish(digest, s, i, beforePublish);
            UpToDate(digest, t, i) && t.vtc[i.schema].presentation == outcome.presentation
  {
    var (t, outcome) := Publish(digest, s, i, beforePublish);
    assert t.assertionMethods == s.assertionMethods;
    if !UpToDate(digest, s, i) {
      assert t.vtc[i.schema].credential.value == Sign(i, SigningKey(s).value).credential;
    }
  }

  /** A call with its arguments and the outcome of its check. */
  datatype Call = Call(input: Input, beforePublish: bool)

  function PublishAll(digest: string -> string, s: State, calls: seq<Call>): State {
    if calls == [] then s
    else
      var t := PublishAll(digest, s, calls[..|calls| - 1]);
      var last := calls[|calls| - 1];
      Publish(digest, t, last.input, last.beforePublish).0
  }

  /**
   * Publishing twice is publishing once, over runs: after a call that returned, and then any calls with
   * the same arguments or for other schemas, whether they return or throw, one more call signs nothing,
   * writes nothing and returns the same presentation, or reports its failed check.
   */
  lemma {:induction false} PublishedStaysPublished(digest: string -> string, s: State, i: Input, beforePublish: bool,
                                                   calls: seq<Call>, again: bool)
    requires Publish(digest, s, i, beforePublish).1.Returned?
    requires forall c :: c in calls ==> c.input == i || c.input.schema != i.schema
    ensures var (t, outcome) := Publish(digest, s, i, beforePublish);
            var u := PublishAll(digest, t, calls);
            && UpToDate(digest, u, i) && u.vtc[i.schema] == t.vtc[i.schema]
            && Publish(digest, u, i, again).0 == u
            && (Publish(digest, u, i, again).1 == outcome || (Attaches(u, i) && !again))
  {
    var (t, outcome) := Publish(digest, s, i, beforePublish);
    ReturnLeavesUpToDate(digest, s, i, beforePublish);
    if calls != [] {
      var last := calls[|calls| - 1];
      PublishedStaysPublished(digest, s, i, beforePublish, calls[..|calls| - 1], again);
      CallKeepsUpToDate(digest, PublishAll(digest, t, calls[..|calls| - 1]), i, last);
    }
  }

  lemma CallKeepsUpToDate(digest: string -> string, s: State, i: Input, c: Call)
    requires UpToDate(digest, s, i) && (c.input == i || c.input.schema != i.schema)
    ensures var t := Publish(digest, s, c.input, c.beforePublish).0;
            UpToDate(digest, t, i) && t.vtc[i.schema] == s.vtc[i.schema]
  {
  }

  /** A failed check before publication leaves the public material as it was. */
  lemma FailureLeavesNothing(digest: string -> string, s: State, i: Input, beforePublish: bool)
    requires Publish(digest, s, i, beforePublish).1.Threw?
    ensures var t := Publish(digest, s, i, beforePublish).0;
            t.services == s.services && t.vtc == s.vtc && t.writes == s.writes
  {
  }

  /**
   * The other half: with a digest that tells the two texts apart, a change of content is always signed
   * anew, and a change of key order never is.
   */
  lemma ChangedContentIsSigned(digest: string -> string, s: State, i: Input, content: Json, beforePublish: bool)
    requires Publish(digest, s, i, beforePublish).1.Returned?
    requires Valid(i.content) && Valid(content) && SortKeys.NoProto(i.content) && SortKeys.NoProto(content)
    requires var a, b := Render(SortKeys.SortKeysDeep(i.content)), Render(SortKeys.SortKeysDeep(content));
             digest(a) == digest(b) ==> a == b
    ensures var t := Publish(digest, s, i, beforePublish).0;
            UpToDate(digest, t, i.(content := content)) <==> CanonicalJson.Same(i.content, content)
  {
    ReturnLeavesUpToDate(digest, s, i, beforePublish);
    SortKeys.SortedTextIffSame(i.content, content);
  }

  // ---------------------------------------------------------------- when the agent signs, and when it attaches

  /** The stored credential is of version 2, the agent's own under the expected id, of this schema and expiry. */
  predicate Describes(i: Input, c: Credential) {
    c.version2 && c.issuer == i.did && c.id == i.did + "#schemas-" + i.schemaId + "-vtc" && c.schema == i.schema &&
    c.validUntil == i.validUntil
  }

  /** It has proofs, all of them Data Integrity proofs by keys that are assertion methods today. */
  predicate ProvenBy(c: Credential, assertionMethods: seq<string>) {
    c.proofs != [] &&
    forall k :: 0 <= k < |c.proofs| ==>
      c.proofs[k].dataIntegrity && c.proofs[k].signer.Some? && c.proofs[k].signer.value in assertionMethods
  }

  /** The entry of the schema holds such a credential and the digest of today's content. */
  predicate StoredFor(digest: string -> string, s: State, i: Input) {
    && i.schema in s.vtc && s.vtc[i.schema].credential.Some?
    && s.vtc[i.schema].integrity == Some(digest(Render(SortKeys.SortKeysDeep(i.content))))
    && Describes(i, s.vtc[i.schema].credential.value) && ProvenBy(s.vtc[i.schema].credential.value, s.assertionMethods)
  }

  /**
   * A call signs exactly when no such credential is stored and the first assertion method is a key of the
   * document; so another issuer, id, schema, expiry or content, or a proof by a key that is no assertion
   * method any more, forces a new signature, and nothing else does.
   */
  lemma SignsIff(digest: string -> string, s: State, i: Input, beforePublish: bool)
    ensures Publish(digest, s, i, beforePublish).0.signatures ==
            s.signatures +
            if !StoredFor(digest, s, i) && s.assertionMethods != [] && s.assertionMethods[0] in s.keys then 1 else 0
    ensures !StoredFor(digest, s, i) && !(s.assertionMethods != [] && s.assertionMethods[0] in s.keys) ==>
              Publish(digest, s, i, beforePublish) == (s, Threw)
  {
  }

  /** After a rotation of the assertion key the stored credential is signed anew, by the new key. */
  lemma RotatedKeySignsAnew(digest: string -> string, s: State, i: Input, key: string)
    requires i.schema in s.vtc && s.vtc[i.schema].credential.Some?
    requires exists k :: 0 <= k < |s.vtc[i.schema].credential.value.proofs| &&
               s.vtc[i.schema].credential.value.proofs[k].signer != Some(key)
    ensures var rotated := s.(assertionMethods := [key], keys := {key});
            var (t, outcome) := Publish(digest, rotated, i, true);
            && t.signatures == s.signatures + 1 && outcome.Returned? && outcome.presentation.Some?
            && outcome.presentation.value.credential.proofs == [Proof(Some(key), true)]
  {
  }

  /**
   * The entry of the schema was not detached, and no other entry that is not detached serves a
   * presentation at this URL.
   */
  predicate MayAttach(s: State, i: Input) {
    && (i.schema in s.vtc ==> s.vtc[i.schema].attached != Some(false))
    && (forall k :: k in s.vtc && k != i.schema && s.vtc[k].presentation.Some? && s.vtc[k].presentation.value.id == i.url ==>
          s.vtc[k].attached == Some(false))
  }

  /**
   * Exactly then a call that signs and returns changes the services and stores the entry as attached; and
   * exactly then the caller's check counts.
   */
  lemma AttachesIff(digest: string -> string, s: State, i: Input, beforePublish: bool)
    ensures Attaches(s, i) <==> MayAttach(s, i)
    ensures var (t, outcome) := Publish(digest, s, i, beforePublish);
            && (MayAttach(s, i) && !beforePublish ==> outcome.Threw?)
            && (outcome.Returned? && !StoredFor(digest, s, i) ==>
                  && i.schema in t.vtc && t.vtc[i.schema].attached == Some(MayAttach(s, i))
                  && (!MayAttach(s, i) ==> t.services == s.services))
  {
  }

  // ---------------------------------------------------------------- what the document announces

  /** The service resolvers look for. */
  predicate IsAnnouncement(i: Input, v: Service) {
    v.id == ServiceId(i) && v.endpoint == Some(i.url) && v.kind == LINKED_VP
  }

  /** A service with the expected id that the rewriting leaves alone. */
  predicate Foreign(i: Input, v: Service) {
    v.id == ServiceId(i) && !Replaced(i, v)
  }

  lemma WhoisIsNoFragment(i: Input)
    ensures WhoisId(i) != ServiceId(i)
  {
    assert WhoisId(i)[|i.did| + 1] == 'w' && ServiceId(i)[|i.did| + 1] == 'v';
  }

  /** Service `k` has the id and got the endpoint. */
  predicate Pointed(services: seq<Service>, id: string, url: string, k: nat) {
    && k < |services| && k < |PointTo(services, id, url)| && services[k].id == id
    && PointTo(services, id, url)[k] == services[k].(endpoint := Some(url))
  }

  lemma {:induction false} PointToKeeps(services: seq<Service>, id: string, url: string)
    ensures |PointTo(services, id, url)| == |services|
    ensures forall k :: 0 <= k < |services| && services[k].id != id ==> PointTo(services, id, url)[k] == services[k]
    ensures forall k :: 0 <= k < |services| ==> PointTo(services, id, url)[k].id == services[k].id
  {
    if services != [] && services[0].id != id {
      PointToKeeps(services[1..], id, url);
    }
  }

  lemma {:induction false} PointToPoints(services: seq<Service>, id: string, url: string) returns (k: nat)
    requires HasId(services, id)
    ensures Pointed(services, id, url, k)
  {
    if services[0].id == id {
      k := 0;
    } else {
      var j :| 0 <= j < |services| && services[j].id == id;
      assert services[1..][j - 1].id == id;
      k := PointToPoints(services[1..], id, url);
      k := k + 1;
    }
  }

  /** The whois step moves no other service. */
  lemma WhoisKeepsOthers(i: Input, services: seq<Service>)
    ensures var r := AnnounceWhois(i, services);
            && |services| <= |r| <= |services| + 1
            && (forall k :: 0 <= k < |services| && services[k].id != WhoisId(i) ==> r[k] == services[k])
            && (forall k :: 0 <= k < |services| ==> r[k].id == services[k].id)
            && (|r| > |services| ==> r[|services|].id == WhoisId(i))
  {
    PointToKeeps(services, WhoisId(i), i.url);
  }

  ghost predicate Announces(i: Input, services: seq<Service>) {
    exists k :: 0 <= k < |services| && IsAnnouncement(i, services[k])
  }

  lemma WhoisKeepsAnnouncement(i: Input, services: seq<Service>)
    ensures Announces(i, AnnounceWhois(i, services)) <==> Announces(i, services)
  {
    WhoisIsNoFragment(i);
    WhoisKeepsOthers(i, services);
    var r := AnnounceWhois(i, services);
    if k :| 0 <= k < |services| && IsAnnouncement(i, services[k]) {
      assert IsAnnouncement(i, r[k]);
    }
    if k :| 0 <= k < |r| && IsAnnouncement(i, r[k]) {
      assert k < |services| && services[k] == r[k];
    }
  }

  lemma RewriteAnnounces(i: Input, v: Service)
    ensures Rewrite(i, v).id == ServiceId(i) <==> Replaced(i, v) || Foreign(i, v)
    ensures IsAnnouncement(i, Rewrite(i, v)) <==> Replaced(i, v)
  {
    WhoisIsNoFragment(i);
  }

  /** The services that a publication leaves as they are. */
  predicate Untouched(i: Input, v: Service) {
    && !(v.kind == LINKED_VP && v.endpoint.Some? && v.id != i.did + "#whois" &&
         (v.id == ServiceId(i) || EndsWith(v.endpoint.value, "/" + i.schemaKey + "-vtc-vp.json")))
    && v.id != i.did + "#whois"
  }

  /**
   * A publication keeps every service in its place, and those of other kinds, ids and files unchanged; the
   * others get the id of the fragment and the URL of the presentation.
   */
  lemma OtherServicesStay(i: Input, services: seq<Service>, k: nat)
    requires k < |services|
    ensures k < |Published(i, Some(services))|
    ensures Untouched(i, services[k]) ==> Published(i, Some(services))[k] == services[k]
    ensures !Untouched(i, services[k]) && services[k].id != i.did + "#whois" ==>
              Published(i, Some(services))[k] == services[k].(id := ServiceId(i), endpoint := Some(i.url))
  {
    WhoisIsNoFragment(i);
    WhoisKeepsOthers(i, Announce(i, services));
    assert Announce(i, services)[k] == RewriteAll(i, services)[k] == Rewrite(i, services[k]);
  }

  function ServicesOf(s: State): seq<Service> {
    if s.services.Some? then s.services.value else []
  }

  /** Some linked presentation is there to rewrite, or no foreign service holds the expected id. */
  ghost predicate LeavesRoom(i: Input, services: seq<Service>) {
    || (exists k :: 0 <= k < |services| && Replaced(i, services[k]))
    || (forall k :: 0 <= k < |services| ==> !Foreign(i, services[k]))
  }

  lemma PublishedAnnouncesIff(i: Input, services: seq<Service>)
    ensures Announces(i, Published(i, Some(services))) <==> LeavesRoom(i, services)
  {
    var rewritten, announced := RewriteAll(i, services), Announce(i, services);
    WhoisKeepsAnnouncement(i, announced);
    forall k | 0 <= k < |services|
      ensures rewritten[k].id == ServiceId(i) <==> Replaced(i, services[k]) || Foreign(i, services[k])
      ensures IsAnnouncement(i, rewritten[k]) <==> Replaced(i, services[k])
    {
      RewriteAnnounces(i, services[k]);
    }
    if HasId(rewritten, ServiceId(i)) {
      assert announced == rewritten;
    } else {
      assert IsAnnouncement(i, announced[|services|]);
    }
  }

  /**
   * Main result. After an attached call that returned, the document announces the presentation at the
   * right URL exactly when: the call signed anew, and some linked presentation was there to rewrite or no
   * foreign service held the expected id; or it had nothing to sign, and the document announced it before.
   */
  lemma AnnouncesIff(digest: string -> string, s: State, i: Input, beforePublish: bool)
    requires Attaches(s, i) && Publish(digest, s, i, beforePublish).1.Returned?
    ensures Announces(i, ServicesOf(Publish(digest, s, i, beforePublish).0)) <==>
            if UpToDate(digest, s, i) then Announces(i, ServicesOf(s)) else LeavesRoom(i, ServicesOf(s))
  {
    assert Published(i, s.services) == Published(i, Some(ServicesOf(s)));
    PublishedAnnouncesIff(i, ServicesOf(s));
  }

  /**
   * A service that is taken out of the document after its publication is not put back: the next call
   * returns the attached presentation, no service stands in the way, and nothing announces it.
   */
  lemma RemovedServiceStaysRemoved(digest: string -> string) returns (s: State, t: State, i: Input)
    ensures Publish(digest, s, i, true).1.Returned? && Attaches(s, i)
    ensures Announces(i, ServicesOf(Publish(digest, s, i, true).0))
    ensures t == Publish(digest, s, i, true).0.(services := Some([]))
    ensures Attaches(t, i) && Publish(digest, t, i, true) == (t, Publish(digest, s, i, true).1)
    ensures LeavesRoom(i, ServicesOf(t)) && !Announces(i, ServicesOf(t))
  {
    i := Input("did:a", "https://a/vt/s.json", "ecs-org", "1", "schema", JsonText.Null, None);
    s := State(None, ["key"], {"key"}, map[], 0, 0);
    PublishedAnnouncesIff(i, []);
    assert Published(i, None) == Published(i, Some([]));
    t := Publish(digest, s, i, true).0.(services := Some([]));
    ReturnLeavesUpToDate(digest, s, i, true);
  }

  /** The id belongs to exactly one service. */
  ghost predicate OnceIn(services: seq<Service>, id: string) {
    HasId(services, id) && forall j, k :: 0 <= j < k < |services| && services[j].id == id ==> services[k].id != id
  }

  /** At most one service is rewritten onto the expected id or holds it. */
  ghost predicate OneAtMost(i: Input, services: seq<Service>) {
    forall j, k :: 0 <= j < k < |services| && (Replaced(i, services[j]) || Foreign(i, services[j])) ==>
      !Replaced(i, services[k]) && !Foreign(i, services[k])
  }

  /** Where the expected id stands after the rewriting. */
  lemma PublishedIds(i: Input, services: seq<Service>)
    ensures var r, announced := Published(i, Some(services)), Announce(i, services);
            && |services| <= |announced| <= |r|
            && (forall k :: 0 <= k < |services| ==> (r[k].id == ServiceId(i) <==> Replaced(i, services[k]) || Foreign(i, services[k])))
            && (forall k :: |announced| <= k < |r| ==> r[k].id != ServiceId(i))
            && (|announced| > |services| ==> r[|services|].id == ServiceId(i) && |announced| == |services| + 1)
  {
    var rewritten, announced, r := RewriteAll(i, services), Announce(i, services), Published(i, Some(services));
    WhoisIsNoFragment(i);
    WhoisKeepsOthers(i, announced);
    forall k | 0 <= k < |services|
      ensures r[k].id == ServiceId(i) <==> Replaced(i, services[k]) || Foreign(i, services[k])
    {
      assert r[k].id == announced[k].id == rewritten[k].id;
    }
  }

  lemma PublishedHasId(i: Input, services: seq<Service>)
    ensures HasId(Published(i, Some(services)), ServiceId(i))
    ensures |Announce(i, services)| > |services| ==>
              forall k :: 0 <= k < |services| ==> !Replaced(i, services[k]) && !Foreign(i, services[k])
  {
    var rewritten, announced, r := RewriteAll(i, services), Announce(i, services), Published(i, Some(services));
    PublishedIds(i, services);
    WhoisIsNoFragment(i);
    forall k | 0 <= k < |services|
      ensures rewritten[k].id == ServiceId(i) <==> Replaced(i, services[k]) || Foreign(i, services[k])
    {
      RewriteAnnounces(i, services[k]);
    }
    if k :| 0 <= k < |services| && rewritten[k].id == ServiceId(i) {
      assert r[k].id == ServiceId(i);
    }
  }

  lemma PublishedOnceIff(i: Input, services: seq<Service>)
    ensures OnceIn(Published(i, Some(services)), ServiceId(i)) <==> OneAtMost(i, services)
  {
    PublishedIds(i, services);
    PublishedHasId(i, services);
  }

  /**
   * After an attached call that returned, exactly one service has the expected id, if at most one was
   * rewritten onto it or held it, or, when there was nothing to sign, if exactly one had it before; and
   * only then.
   */
  lemma AnnouncedOnceIff(digest: string -> string, s: State, i: Input, beforePublish: bool)
    requires Attaches(s, i) && Publish(digest, s, i, beforePublish).1.Returned?
    ensures OnceIn(ServicesOf(Publish(digest, s, i, beforePublish).0), ServiceId(i)) <==>
            if UpToDate(digest, s, i) then OnceIn(ServicesOf(s), ServiceId(i)) else OneAtMost(i, ServicesOf(s))
  {
    assert Published(i, s.services) == Published(i, Some(ServicesOf(s)));
    PublishedOnceIff(i, ServicesOf(s));
  }

  ghost predicate WhoisPoints(i: Input, services: seq<Service>) {
    exists k :: 0 <= k < |services| && services[k].id == WhoisId(i) && services[k].endpoint == Some(i.url)
  }

  /** For the Service schema a call that signs points the whois service to the presentation as well. */
  lemma WhoisIsAnnounced(digest: string -> string, s: State, i: Input, beforePublish: bool)
    requires i.schemaKey == SERVICE_KEY && Attaches(s, i) && Publish(digest, s, i, beforePublish).1.Returned?
    ensures WhoisPoints(i, ServicesOf(Publish(digest, s, i, beforePublish).0)) <==>
            !UpToDate(digest, s, i) || WhoisPoints(i, ServicesOf(s))
  {
    var announced := Announce(i, ServicesOf(s));
    if HasId(announced, WhoisId(i)) {
      var k := PointToPoints(announced, WhoisId(i), i.url);
      assert Published(i, s.services)[k].id == WhoisId(i);
    } else {
      assert Published(i, s.services)[|announced|].id == WhoisId(i);
    }
  }

  // ---------------------------------------------------------------- the record

  class SelfIssuedRecord {
    var services: Option<seq<Service>>
    var assertionMethods: seq<string>
    var keys: set<string>
    var vtc: map<string, StoredEntry>
    var signatures: nat
    var writes: nat

    constructor (assertionMethods: seq<string>, keys: set<string>)
      ensures View() == State(None, assertionMethods, keys, map[], 0, 0)
    {
      this.assertionMethods, this.keys := assertionMethods, keys;
      services, vtc, signatures, writes := None, map[], 0, 0;
    }

    function View(): State
      reads this
    {
      State(services, assertionMethods, keys, vtc, signatures, writes)
    }

    /** The three changes to the services of the document. */
    method RewriteServices(i: Input)
      modifies this`services
      ensures services == Some(Published(i, old(services)))
    {
      if services.Some? {
        services := Some(RewriteAll(i, services.value));
      } else {
        assert RewriteAll(i, []) == [];
      }
      var present := if services.Some? then services.value else [];
      if !HasId(present, ServiceId(i)) {
        services := Some(present + [Service(ServiceId(i), Some(i.url), LINKED_VP)]);
      }
      if i.schemaKey == SERVICE_KEY {
        var announced := services.value;
        if HasId(announced, WhoisId(i)) {
          services := Some(PointTo(announced, WhoisId(i), i.url));
        } else {
          services := Some(announced + [Service(WhoisId(i), Some(i.url), LINKED_VP)]);
        }
      }
    }

    /** `publishSelfIssuedEcsPresentation`; `beforePublish` tells whether the caller's check succeeds. */
    method PublishSelfIssuedEcsPresentation(digest: string -> string, i: Input, beforePublish: bool) returns (outcome: Outcome)
      modifies this
      ensures (View(), outcome) == Publish(digest, old(View()), i, beforePublish)
    {
      var integrity := Integrity(digest, i.content);
      var attached := Attaches(View(), i);
      if i.schema in vtc && vtc[i.schema].integrity == Some(integrity) && Current(View(), i, vtc[i.schema].credential) {
        if attached && !beforePublish { return Threw; }
        return Returned(vtc[i.schema].presentation);
      }
      var key := SigningKey(View());
      if key.None? { return Threw; }
      var presentation := Sign(i, key.value);
      signatures := signatures + 1;
      if attached && !beforePublish { return Threw; }
      if attached {
        RewriteServices(i);
      }
      vtc := vtc[i.schema := StoredEntry(Some(presentation.credential), Some(presentation), Some(integrity), Some(attached))];
      writes := writes + 1;
      return Returned(Some(presentation));
    }
  }
}
