/**
 * How the agent derives the CredentialSchema behind an AnonCreds object, with its two memo maps, and
 * how it checks that a DID may act for a CredentialSchema.
 *
 * Models packages/agent-sdk/src/blockchain/AnonCredsTrustService.ts. What the agent reads from the
 * outside is a `World`: every read may fail, and the world may differ from call to call.
 */
module AnonCredsTrust {
  import opened Options

  /** `Other` stands for an exception that is no `AnonCredsTrustError`. */
  datatype Reason = NotDerivable | NotAuthorized | Unavailable | Other

  datatype Reference = CredentialDefinition(id: string) | AnonCredsSchema(id: string)

  /** An AnonCreds object: the VTJSC it relates to, if any, its schema and its issuer. */
  datatype AnonCredsObject = AnonCredsObject(vtjsc: string, schema: string, issuer: Option<string>)

  datatype Derived = Derived(credentialSchema: nat, ecosystem: string, vtjsc: string, schema: string, issuer: Option<string>)

  datatype Link = Link(credentialSchema: nat, ecosystem: string)

  datatype Read<+T> = Failed | Missing | Found(value: T)

  datatype ProofCheck = NoCredential | InvalidProof | CannotVerify | ValidProof

  /** The parts of a VTJSC that the agent reads; `reference` is the parsed chain and CredentialSchema. */
  datatype Document = Document(proof: ProofCheck, reference: Option<(string, nat)>, issuer: Option<string>)

  datatype Participant = Participant(did: string, role: string, credentialSchema: nat, active: bool)

  /**
   * The outside world at the time of a call. An absent entry of `ownObjects` or `objects` makes the
   * read throw; `Missing` is an object that does not resolve; a missing document or query result is a
   * failed read.
   */
  datatype World = World(
    ownObjects: map<Reference, Option<AnonCredsObject>>,
    objects: map<Reference, Option<AnonCredsObject>>,
    documents: map<string, Document>,
    chain: Option<string>,
    credentialSchemas: map<nat, Option<nat>>,
    ecosystems: map<nat, Option<string>>,
    participants: map<(string, string, nat), seq<Participant>>)

  datatype Caches = Caches(derivations: map<string, Derived>, links: map<string, Link>)

  const EMPTY_CACHES := Caches(map[], map[])

  function Key(r: Reference): string {
    match r
    case CredentialDefinition(id) => "credentialDefinition:" + id
    case AnonCredsSchema(id) => "schema:" + id
  }

  lemma KeyIsInjective(r: Reference, q: Reference)
    requires Key(r) == Key(q)
    ensures r == q
  {
    assert Key(r)[0] == Key(q)[0];
    if r.CredentialDefinition? {
      assert r.id == Key(r)[21..] && q.id == Key(q)[21..];
    } else {
      assert r.id == Key(r)[7..] && q.id == Key(q)[7..];
    }
  }

  // ---------------------------------------------------------------- what the agent reads

  /** `resolveAnonCredsObject`: an own record with a related VTJSC first, then the registry. */
  function ResolveObject(w: World, r: Reference): Result<AnonCredsObject, Reason> {
    if r !in w.ownObjects then Err(Other)
    else if w.ownObjects[r].Some? && w.ownObjects[r].value.vtjsc != "" then Ok(w.ownObjects[r].value)
    else if r !in w.objects then Err(Other)
    else if w.objects[r].None? then Err(Unavailable)
    else if w.objects[r].value.vtjsc == "" then Err(NotDerivable)
    else Ok(w.objects[r].value)
  }

  function ReadFrom<T>(entries: map<nat, Option<T>>, id: nat): Result<T, Reason> {
    if id !in entries then Err(Unavailable)
    else if entries[id].None? then Err(NotDerivable)
    else Ok(entries[id].value)
  }

  function VerifyProof(proof: ProofCheck): Option<Reason> {
    match proof
    case NoCredential => Some(NotDerivable)
    case InvalidProof => Some(NotDerivable)
    case CannotVerify => Some(Unavailable)
    case ValidProof => None
  }

  /** `resolveCredentialSchemaLink` without its memo map. */
  function ResolveLink(w: World, vtjsc: string): Result<Link, Reason> {
    if vtjsc !in w.documents then Err(Unavailable)
    else
      var document := w.documents[vtjsc];
      if VerifyProof(document.proof).Some? then Err(VerifyProof(document.proof).value)
      else if document.reference.None? then Err(NotDerivable)
      else if w.chain.None? || w.chain.value == "" then Err(Unavailable)
      else if document.reference.value.0 != w.chain.value then Err(NotDerivable)
      else
        var id := document.reference.value.1;
        match ReadFrom(w.credentialSchemas, id)
        case Err(reason) => Err(reason)
        case Ok(ecosystemId) =>
          match ReadFrom(w.ecosystems, ecosystemId)
          case Err(reason) => Err(reason)
          case Ok(did) =>
            if did == "" || document.issuer != Some(did) then Err(NotDerivable)
            else Ok(Link(id, did))
  }

  /** What a link promises: a proven document that names a CredentialSchema of this chain, issued by its Ecosystem. */
  ghost predicate BindsTo(w: World, vtjsc: string, link: Link) {
    && vtjsc in w.documents
    && w.documents[vtjsc].proof == ValidProof
    && w.chain.Some? && w.chain.value != "" && link.ecosystem != ""
    && w.documents[vtjsc].reference == Some((w.chain.value, link.credentialSchema))
    && link.credentialSchema in w.credentialSchemas
    && exists e: nat :: w.credentialSchemas[link.credentialSchema] == Some(e) && e in w.ecosystems &&
         w.ecosystems[e] == Some(link.ecosystem) && w.documents[vtjsc].issuer == Some(link.ecosystem)
  }

  /** A read that the link needs failed, and nothing before it had settled the answer. */
  ghost predicate CannotRead(w: World, vtjsc: string) {
    vtjsc !in w.documents ||
    var d := w.documents[vtjsc];
    || d.proof == CannotVerify
    || (&& d.proof == ValidProof && d.reference.Some?
        && (|| w.chain.None? || w.chain.value == ""
            || (&& d.reference.value.0 == w.chain.value
                && var id := d.reference.value.1;
                   || id !in w.credentialSchemas
                   || (w.credentialSchemas[id].Some? && w.credentialSchemas[id].value !in w.ecosystems))))
  }

  /** A link is found exactly when the VTJSC binds to it, and `unavailable` says exactly that a read failed. */
  lemma LinkIffBinds(w: World, vtjsc: string, link: Link)
    ensures ResolveLink(w, vtjsc) == Ok(link) <==> BindsTo(w, vtjsc, link)
    ensures ResolveLink(w, vtjsc) == Err(Unavailable) <==> CannotRead(w, vtjsc)
    ensures ResolveLink(w, vtjsc) != Err(Other) && ResolveLink(w, vtjsc) != Err(NotAuthorized)
  {
  }

  /** An own record that relates to a VTJSC, or else an object of the registry that does. */
  ghost predicate Names(w: World, r: Reference, o: AnonCredsObject) {
    && o.vtjsc != "" && r in w.ownObjects
    && (|| w.ownObjects[r] == Some(o)
        || (&& (w.ownObjects[r].None? || w.ownObjects[r].value.vtjsc == "")
            && r in w.objects && w.objects[r] == Some(o)))
  }

  /** The own record, or else the object of the registry, cannot be read. */
  ghost predicate CannotName(w: World, r: Reference) {
    || r !in w.ownObjects
    || (&& (w.ownObjects[r].None? || w.ownObjects[r].value.vtjsc == "")
        && (r !in w.objects || w.objects[r].None?))
  }

  lemma ObjectIffNamed(w: World, r: Reference, o: AnonCredsObject)
    ensures ResolveObject(w, r) == Ok(o) <==> Names(w, r, o)
    ensures ResolveObject(w, r) == Err(Unavailable) || ResolveObject(w, r) == Err(Other) <==> CannotName(w, r)
    ensures ResolveObject(w, r) != Err(NotAuthorized)
  {
  }

  // ---------------------------------------------------------------- the memo maps

  function LinkOf(c: Caches, w: World, vtjsc: string): Result<Link, Reason> {
    if vtjsc in c.links then Ok(c.links[vtjsc]) else ResolveLink(w, vtjsc)
  }

  /** What a call of `deriveCredentialSchema` answers. */
  function Derive(c: Caches, w: World, r: Reference): Result<Derived, Reason> {
    if Key(r) in c.derivations then Ok(c.derivations[Key(r)])
    else
      match ResolveObject(w, r)
      case Err(reason) => Err(reason)
      case Ok(found) =>
        match LinkOf(c, w, found.vtjsc)
        case Err(reason) => Err(reason)
        case Ok(link) => Ok(Derived(link.credentialSchema, link.ecosystem, found.vtjsc, found.schema, found.issuer))
  }

  /** The memo maps after the call: successes are kept, failures are not. */
  function AfterDerive(c: Caches, w: World, r: Reference): Caches {
    if Key(r) in c.derivations || Derive(c, w, r).Err? then c
    else
      var derived := Derive(c, w, r).value;
      Caches(c.derivations[Key(r) := derived], c.links[derived.vtjsc := Link(derived.credentialSchema, derived.ecosystem)])
  }

  /** In an unchanged world the memo maps are invisible: a call changes the answer of no other call. */
  lemma DeriveIsTransparent(c: Caches, w: World, r: Reference, q: Reference)
    ensures Derive(AfterDerive(c, w, r), w, q) == Derive(c, w, q)
  {
    if Key(r) == Key(q) {
      KeyIsInjective(r, q);
    }
  }

  /** The kept link of the VTJSC, or else the one it binds to. */
  ghost predicate LinksTo(c: Caches, w: World, vtjsc: string, link: Link) {
    if vtjsc in c.links then c.links[vtjsc] == link else BindsTo(w, vtjsc, link)
  }

  /** The kept derivation of the object, or else one from its VTJSC and the link of that. */
  ghost predicate DerivesTo(c: Caches, w: World, r: Reference, d: Derived) {
    if Key(r) in c.derivations then c.derivations[Key(r)] == d
    else
      exists o, link :: Names(w, r, o) && LinksTo(c, w, o.vtjsc, link) &&
        d == Derived(link.credentialSchema, link.ecosystem, o.vtjsc, o.schema, o.issuer)
  }

  /** Nothing is kept, and a read that the derivation needs failed. */
  ghost predicate CannotDerive(c: Caches, w: World, r: Reference) {
    && Key(r) !in c.derivations
    && (|| CannotName(w, r)
        || exists o :: Names(w, r, o) && o.vtjsc !in c.links && CannotRead(w, o.vtjsc))
  }

  /**
   * A derivation is answered exactly when the object is named with a VTJSC and that binds to the link, or
   * the answer is kept; it cannot be checked exactly when a needed read failed.
   */
  lemma DerivedIffBinds(c: Caches, w: World, r: Reference, d: Derived)
    ensures Derive(c, w, r) == Ok(d) <==> DerivesTo(c, w, r, d)
    ensures Derive(c, w, r) == Err(Unavailable) || Derive(c, w, r) == Err(Other) <==> CannotDerive(c, w, r)
  {
    if Key(r) !in c.derivations {
      var found := ResolveObject(w, r);
      if found.Ok? {
        var o := found.value;
        ObjectIffNamed(w, r, o);
        assert forall q :: Names(w, r, q) ==> q == o;
        var link := LinkOf(c, w, o.vtjsc);
        LinkIffBinds(w, o.vtjsc, if link.Ok? then link.value else Link(0, ""));
        if link.Ok? {
          assert Names(w, r, o) && LinksTo(c, w, o.vtjsc, link.value);
        }
        forall l | LinksTo(c, w, o.vtjsc, l) ensures link == Ok(l) {
          LinkIffBinds(w, o.vtjsc, l);
        }
      } else {
        forall q ensures !Names(w, r, q) {
          ObjectIffNamed(w, r, q);
        }
        ObjectIffNamed(w, r, AnonCredsObject("", "", None));
      }
    }
  }

  // ---------------------------------------------------------------- authorisation

  /** The indexer answers, and lists an active entry of the DID in that role for the CredentialSchema. */
  ghost predicate IsAccredited(w: World, did: string, role: string, credentialSchema: nat) {
    && (did, role, credentialSchema) in w.participants
    && exists x :: x in w.participants[(did, role, credentialSchema)] && x.did == did && x.role == role &&
         x.credentialSchema == credentialSchema && x.active
  }

  /** `assertAuthorized`: the reason it throws, if it does. */
  function AuthorizationError(w: World, did: string, role: string, credentialSchema: nat): Option<Reason> {
    if (did, role, credentialSchema) !in w.participants then Some(Unavailable)
    else if Participant(did, role, credentialSchema, true) in w.participants[(did, role, credentialSchema)] then None
    else Some(NotAuthorized)
  }

  lemma AuthorizedIffAccredited(w: World, did: string, role: string, credentialSchema: nat)
    ensures AuthorizationError(w, did, role, credentialSchema) == None <==> IsAccredited(w, did, role, credentialSchema)
    ensures AuthorizationError(w, did, role, credentialSchema) == Some(Unavailable) <==>
            (did, role, credentialSchema) !in w.participants
    ensures AuthorizationError(w, did, role, credentialSchema) != Some(Other)
  {
    if IsAccredited(w, did, role, credentialSchema) {
      var x :| x in w.participants[(did, role, credentialSchema)] && x.did == did && x.role == role &&
        x.credentialSchema == credentialSchema && x.active;
      assert x == Participant(did, role, credentialSchema, true);
    }
  }

  // ---------------------------------------------------------------- the service

  class AnonCredsTrustService {
    var derivations: map<string, Derived>
    var credentialSchemaLinks: map<string, Link>

    constructor ()
      ensures View() == EMPTY_CACHES
    {
      derivations, credentialSchemaLinks := map[], map[];
    }

    function View(): Caches
      reads this
    {
      Caches(derivations, credentialSchemaLinks)
    }

    method ResolveCredentialSchemaLink(w: World, vtjsc: string) returns (link: Result<Link, Reason>)
      modifies this`credentialSchemaLinks
      ensures link == LinkOf(old(View()), w, vtjsc)
      ensures credentialSchemaLinks ==
              if link.Ok? then old(credentialSchemaLinks)[vtjsc := link.value] else old(credentialSchemaLinks)
    {
      if vtjsc in credentialSchemaLinks {
        link := Ok(credentialSchemaLinks[vtjsc]);
        return;
      }
      link := ResolveLink(w, vtjsc);
      if link.Ok? {
        credentialSchemaLinks := credentialSchemaLinks[vtjsc := link.value];
      }
    }

    method DeriveCredentialSchema(w: World, r: Reference) returns (derived: Result<Derived, Reason>)
      modifies this
      ensures derived == Derive(old(View()), w, r)
      ensures View() == AfterDerive(old(View()), w, r)
    {
      var key := Key(r);
      if key in derivations {
        return Ok(derivations[key]);
      }
      var found := ResolveObject(w, r);
      if found.Err? {
        return Err(found.error);
      }
      var link := ResolveCredentialSchemaLink(w, found.value.vtjsc);
      if link.Err? {
        return Err(link.error);
      }
      derived := Ok(Derived(link.value.credentialSchema, link.value.ecosystem, found.value.vtjsc,
                            found.value.schema, found.value.issuer));
      derivations := derivations[key := derived.value];
    }

    /** `findUnaccreditedDids`: each DID is checked once, however often it is listed. */
    method FindUnaccreditedDids(w: World, dids: seq<string>, role: string, credentialSchema: nat)
      returns (unaccredited: seq<string>, unchecked: seq<string>)
      ensures forall did :: did in unaccredited <==>
                did in dids && AuthorizationError(w, did, role, credentialSchema) == Some(NotAuthorized)
      ensures forall did :: did in unchecked <==>
                did in dids && AuthorizationError(w, did, role, credentialSchema) == Some(Unavailable)
      ensures forall i, j :: 0 <= i < j < |unaccredited| ==> unaccredited[i] != unaccredited[j]
      ensures forall i, j :: 0 <= i < j < |unchecked| ==> unchecked[i] != unchecked[j]
    {
      unaccredited, unchecked := [], [];
      var seen: set<string> := {};
      for i := 0 to |dids|
        invariant seen == set k | 0 <= k < i :: dids[k]
        invariant forall did :: did in unaccredited <==>
                    did in seen && AuthorizationError(w, did, role, credentialSchema) == Some(NotAuthorized)
        invariant forall did :: did in unchecked <==>
                    did in seen && AuthorizationError(w, did, role, credentialSchema) == Some(Unavailable)
        invariant forall i, j :: 0 <= i < j < |unaccredited| ==> unaccredited[i] != unaccredited[j]
        invariant forall i, j :: 0 <= i < j < |unchecked| ==> unchecked[i] != unchecked[j]
      {
        var did := dids[i];
        if did !in seen {
          seen := seen + {did};
          match AuthorizationError(w, did, role, credentialSchema) {
            case Some(Unavailable) => unchecked := unchecked + [did];
            case Some(_) => unaccredited := unaccredited + [did];
            case None =>
          }
        }
      }
    }
  }
}
