/**
 * The decision on a received AnonCreds presentation: it collects the issuers group by group, checks
 * them CredentialSchema by CredentialSchema, and ends the exchange unless everything holds.
 *
 * Models `applyAnonCredsTrustDecision`, `abandonPresentation` and their caller in
 * packages/agent-sdk/src/events/BaseMessageEvents.ts.
 */
module TrustDecision {
  import opened Options
  import opened AnonCredsTrust

  const ISSUER := "ISSUER"

  /** A requested group and the CredentialSchema it asks for. */
  datatype Group = Group(name: string, credentialSchema: nat)

  /** The metadata of the exchange: nothing, the legacy array of ids, or the groups. */
  datatype Stored = NothingStored | LegacyArray(ids: seq<nat>) | Groups(groups: seq<Group>)

  /** The four maps that answer a group with the index of a sub-proof. */
  datatype Proof = Proof(identifiers: seq<string>, revealed: map<string, nat>, revealedGroups: map<string, nat>,
                         unrevealed: map<string, nat>, predicates: map<string, nat>)

  datatype Finding =
    | NoAnswer(group: string)
    | WrongSchema(definition: string, presented: nat, group: string, requested: nat)
    | NoIssuer(definition: string)
    | Underivable(definition: string, reason: Reason)
    | NoParticipant(did: string, credentialSchema: nat)

  datatype Code = IssuerNotAuthorized | TrustResolutionUnavailable

  datatype Decision = Pass | Abandon(code: Code, unaccredited: seq<Finding>, unchecked: seq<Finding>)

  // ---------------------------------------------------------------- the specification: group by group

  datatype Verdict = Holds | Fails(finding: Finding) | Unknown(finding: Finding)

  function RequestedGroups(stored: Stored): seq<Group> {
    match stored
    case NothingStored => []
    case LegacyArray(_) => []
    case Groups(groups) => groups
  }

  /** The sub-proof of a group: predicates before unrevealed attributes, attribute groups and attributes. */
  function SubProof(p: Proof, group: string): Option<nat> {
    if group in p.predicates then Some(p.predicates[group])
    else if group in p.unrevealed then Some(p.unrevealed[group])
    else if group in p.revealedGroups then Some(p.revealedGroups[group])
    else if group in p.revealed then Some(p.revealed[group])
    else None
  }

  /** The credential definition that answers a group; empty when there is none. */
  function DefinitionOf(p: Proof, group: string): string {
    var index := SubProof(p, group);
    if index.Some? && index.value < |p.identifiers| then p.identifiers[index.value] else ""
  }

  predicate CannotCheck(reason: Reason) {
    reason == Unavailable || reason == Other
  }

  function IssuerVerdict(w: World, did: string, credentialSchema: nat): Verdict {
    match AuthorizationError(w, did, ISSUER, credentialSchema)
    case None => Holds
    case Some(reason) =>
      if CannotCheck(reason) then Unknown(NoParticipant(did, credentialSchema))
      else Fails(NoParticipant(did, credentialSchema))
  }

  /** How far a group comes on its own: to an issuer that is to be checked, or to a finding. */
  datatype Screening = Named(issuer: string) | Refused(finding: Finding) | Unread(finding: Finding)

  function Screen(c: Caches, w: World, p: Proof, g: Group): Screening {
    var definition := DefinitionOf(p, g.name);
    if definition == "" then Refused(NoAnswer(g.name))
    else
      match Derive(c, w, CredentialDefinition(definition))
      case Err(reason) =>
        if CannotCheck(reason) then Unread(Underivable(definition, reason)) else Refused(Underivable(definition, reason))
      case Ok(derived) =>
        if derived.credentialSchema != g.credentialSchema then
          Refused(WrongSchema(definition, derived.credentialSchema, g.name, g.credentialSchema))
        else if derived.issuer.None? || derived.issuer.value == "" then Refused(NoIssuer(definition))
        else Named(derived.issuer.value)
  }

  /** A group holds when the right CredentialSchema answers it and the issuer may issue that one. */
  function GroupVerdict(c: Caches, w: World, p: Proof, g: Group): Verdict {
    match Screen(c, w, p, g)
    case Named(issuer) => IssuerVerdict(w, issuer, g.credentialSchema)
    case Refused(finding) => Fails(finding)
    case Unread(finding) => Unknown(finding)
  }

  /** The decision refines the verdicts: it reports every failing group and nothing else. */
  ghost predicate Decides(c: Caches, w: World, p: Proof, groups: seq<Group>, d: Decision) {
    && (d == Pass <==> forall g :: g in groups ==> GroupVerdict(c, w, p, g) == Holds)
    && (d.Abandon? ==>
          && (d.code == IssuerNotAuthorized <==> exists g :: g in groups && GroupVerdict(c, w, p, g).Fails?)
          && (forall f :: f in d.unaccredited <==> exists g :: g in groups && GroupVerdict(c, w, p, g) == Fails(f))
          && (forall f :: f in d.unchecked <==> exists g :: g in groups && GroupVerdict(c, w, p, g) == Unknown(f)))
  }

  // ---------------------------------------------------------------- the verdicts in the terms of proof and world

  /** The proof names index `i` for the group: of its four maps the last one that has the group decides. */
  ghost predicate AnswersWith(p: Proof, group: string, i: nat) {
    || (group in p.predicates && p.predicates[group] == i)
    || (group !in p.predicates && group in p.unrevealed && p.unrevealed[group] == i)
    || (group !in p.predicates && group !in p.unrevealed && group in p.revealedGroups && p.revealedGroups[group] == i)
    || (group !in p.predicates && group !in p.unrevealed && group !in p.revealedGroups &&
        group in p.revealed && p.revealed[group] == i)
  }

  /** The identifier under that index names a credential definition. */
  ghost predicate Presents(p: Proof, group: string, definition: string) {
    definition != "" && exists i: nat :: AnswersWith(p, group, i) && i < |p.identifiers| && p.identifiers[i] == definition
  }

  /** The group is answered with its own CredentialSchema, by an issuer that is named. */
  ghost predicate PresentsIssuer(c: Caches, w: World, p: Proof, g: Group, issuer: string) {
    && issuer != ""
    && exists definition, d :: Presents(p, g.name, definition) && DerivesTo(c, w, CredentialDefinition(definition), d) &&
         d.credentialSchema == g.credentialSchema && d.issuer == Some(issuer)
  }

  /** The group holds: its issuer is an active ISSUER for the requested CredentialSchema. */
  ghost predicate IsSatisfied(c: Caches, w: World, p: Proof, g: Group) {
    exists issuer :: PresentsIssuer(c, w, p, g, issuer) && IsAccredited(w, issuer, "ISSUER", g.credentialSchema)
  }

  /** The group cannot be checked: its derivation or the entries of its issuer cannot be read. */
  ghost predicate IsUncheckable(c: Caches, w: World, p: Proof, g: Group) {
    || (exists definition :: Presents(p, g.name, definition) && CannotDerive(c, w, CredentialDefinition(definition)))
    || (exists issuer :: PresentsIssuer(c, w, p, g, issuer) && (issuer, "ISSUER", g.credentialSchema) !in w.participants)
  }

  lemma DefinitionIffPresented(p: Proof, group: string, definition: string)
    ensures Presents(p, group, definition) <==> definition != "" && DefinitionOf(p, group) == definition
  {
    if definition != "" && DefinitionOf(p, group) == definition {
      assert AnswersWith(p, group, SubProof(p, group).value);
    }
  }

  lemma ScreenIffPresented(c: Caches, w: World, p: Proof, g: Group, issuer: string)
    ensures Screen(c, w, p, g) == Named(issuer) <==> PresentsIssuer(c, w, p, g, issuer)
    ensures Screen(c, w, p, g).Unread? <==>
            exists definition :: Presents(p, g.name, definition) && CannotDerive(c, w, CredentialDefinition(definition))
  {
    var definition := DefinitionOf(p, g.name);
    DefinitionIffPresented(p, g.name, definition);
    forall x | Presents(p, g.name, x) ensures x == definition {
      DefinitionIffPresented(p, g.name, x);
    }
    if definition != "" {
      var derived := Derive(c, w, CredentialDefinition(definition));
      forall d ensures derived == Ok(d) <==> DerivesTo(c, w, CredentialDefinition(definition), d) {
        DerivedIffBinds(c, w, CredentialDefinition(definition), d);
      }
      DerivedIffBinds(c, w, CredentialDefinition(definition), Derived(0, "", "", "", None));
    }
  }

  /** A verdict says exactly that the group is satisfied, that it cannot be checked, or that it is neither. */
  lemma VerdictIsSatisfaction(c: Caches, w: World, p: Proof, g: Group)
    ensures GroupVerdict(c, w, p, g) == Holds <==> IsSatisfied(c, w, p, g)
    ensures GroupVerdict(c, w, p, g).Unknown? <==> IsUncheckable(c, w, p, g)
  {
    forall issuer ensures Screen(c, w, p, g) == Named(issuer) <==> PresentsIssuer(c, w, p, g, issuer) {
      ScreenIffPresented(c, w, p, g, issuer);
    }
    ScreenIffPresented(c, w, p, g, "");
    if Screen(c, w, p, g).Named? {
      AuthorizedIffAccredited(w, Screen(c, w, p, g).issuer, ISSUER, g.credentialSchema);
    }
  }

  /**
   * The decision in the terms of proof and world: it passes exactly when there are groups and all are
   * satisfied, and else says that an issuer is not authorized exactly when some group is neither satisfied
   * nor uncheckable.
   */
  ghost predicate DecidesBySatisfaction(c: Caches, w: World, p: Proof, groups: seq<Group>, d: Decision) {
    && (d == Pass <==> groups != [] && forall g :: g in groups ==> IsSatisfied(c, w, p, g))
    && (d.Abandon? ==>
          (d.code == IssuerNotAuthorized <==>
             exists g :: g in groups && !IsSatisfied(c, w, p, g) && !IsUncheckable(c, w, p, g)))
  }

  lemma VerdictsDecide(c: Caches, w: World, p: Proof, groups: seq<Group>, d: Decision)
    requires groups != [] && Decides(c, w, p, groups, d)
    ensures DecidesBySatisfaction(c, w, p, groups, d)
  {
    forall g
      ensures GroupVerdict(c, w, p, g) == Holds <==> IsSatisfied(c, w, p, g)
      ensures GroupVerdict(c, w, p, g).Unknown? <==> IsUncheckable(c, w, p, g)
    {
      VerdictIsSatisfaction(c, w, p, g);
    }
    if d.Abandon? {
      if g :| g in groups && GroupVerdict(c, w, p, g).Fails? {
        assert !IsSatisfied(c, w, p, g) && !IsUncheckable(c, w, p, g);
      }
      if g :| g in groups && !IsSatisfied(c, w, p, g) && !IsUncheckable(c, w, p, g) {
        assert GroupVerdict(c, w, p, g).Fails?;
      }
    }
  }

  // ---------------------------------------------------------------- collecting the issuers

  /** One of the first `n` groups is screened with the given result. */
  ghost predicate Screened(c: Caches, w: World, p: Proof, groups: seq<Group>, n: nat, x: Screening)
    requires n <= |groups|
  {
    exists k :: 0 <= k < n && Screen(c, w, p, groups[k]) == x
  }

  /** One of the first `n` groups asks for CredentialSchema `s` and names the issuer. */
  ghost predicate NamedFor(c: Caches, w: World, p: Proof, groups: seq<Group>, n: nat, s: nat, issuer: string)
    requires n <= |groups|
  {
    exists k :: 0 <= k < n && groups[k].credentialSchema == s && Screen(c, w, p, groups[k]) == Named(issuer)
  }

  /** What the first loop collects: the issuers by CredentialSchema, and the findings. */
  datatype Collection = Collection(issuers: map<nat, seq<string>>, unaccredited: seq<Finding>, unchecked: seq<Finding>)

  const NOTHING := Collection(map[], [], [])

  /** A finding is collected exactly when one of the first `n` groups has it. */
  ghost predicate FindingOk(c: Caches, w: World, p: Proof, groups: seq<Group>, n: nat, col: Collection, f: Finding)
    requires n <= |groups|
  {
    && (f in col.unaccredited <==> Screened(c, w, p, groups, n, Refused(f)))
    && (f in col.unchecked <==> Screened(c, w, p, groups, n, Unread(f)))
  }

  /** An issuer is collected for a CredentialSchema exactly when one of the first `n` groups names it. */
  ghost predicate IssuerOk(c: Caches, w: World, p: Proof, groups: seq<Group>, n: nat, col: Collection, s: nat, did: string)
    requires n <= |groups|
  {
    s in col.issuers && did in col.issuers[s] <==> NamedFor(c, w, p, groups, n, s, did)
  }

  /** The collection after `n` groups. */
  ghost predicate Collected(c: Caches, w: World, p: Proof, groups: seq<Group>, n: nat, col: Collection)
    requires n <= |groups|
  {
    && (forall f :: FindingOk(c, w, p, groups, n, col, f))
    && (forall s, did :: IssuerOk(c, w, p, groups, n, col, s, did))
  }

  /** Pushes a screening onto the list it belongs to. */
  function Push(col: Collection, s: nat, x: Screening): Collection {
    match x
    case Refused(finding) => col.(unaccredited := col.unaccredited + [finding])
    case Unread(finding) => col.(unchecked := col.unchecked + [finding])
    case Named(issuer) =>
      col.(issuers := col.issuers[s := (if s in col.issuers then col.issuers[s] else []) + [issuer]])
  }

  /** What the first `n` groups leave. */
  function Collect(c: Caches, w: World, p: Proof, groups: seq<Group>, n: nat): Collection
    requires n <= |groups|
  {
    if n == 0 then NOTHING
    else Push(Collect(c, w, p, groups, n - 1), groups[n - 1].credentialSchema, Screen(c, w, p, groups[n - 1]))
  }

  lemma FindingStep(c: Caches, w: World, p: Proof, groups: seq<Group>, n: nat, col: Collection, f: Finding)
    requires n < |groups| && FindingOk(c, w, p, groups, n, col, f)
    ensures FindingOk(c, w, p, groups, n + 1, Push(col, groups[n].credentialSchema, Screen(c, w, p, groups[n])), f)
  {
  }

  lemma IssuerStep(c: Caches, w: World, p: Proof, groups: seq<Group>, n: nat, col: Collection, s: nat, did: string)
    requires n < |groups| && IssuerOk(c, w, p, groups, n, col, s, did)
    ensures IssuerOk(c, w, p, groups, n + 1, Push(col, groups[n].credentialSchema, Screen(c, w, p, groups[n])), s, did)
  {
  }

  lemma {:induction false} CollectIsComplete(c: Caches, w: World, p: Proof, groups: seq<Group>, n: nat)
    requires n <= |groups|
    ensures Collected(c, w, p, groups, n, Collect(c, w, p, groups, n))
  {
    if n > 0 {
      CollectIsComplete(c, w, p, groups, n - 1);
      var col := Collect(c, w, p, groups, n - 1);
      forall f ensures FindingOk(c, w, p, groups, n, Collect(c, w, p, groups, n), f) {
        FindingStep(c, w, p, groups, n - 1, col, f);
      }
      forall s, did ensures IssuerOk(c, w, p, groups, n, Collect(c, w, p, groups, n), s, did) {
        IssuerStep(c, w, p, groups, n - 1, col, s, did);
      }
    }
  }

  /** The memo maps may differ as long as no answer does. */
  ghost predicate SameAnswers(c: Caches, d: Caches, w: World) {
    forall r :: Derive(c, w, r) == Derive(d, w, r)
  }

  lemma SameScreening(c: Caches, d: Caches, w: World, p: Proof, g: Group)
    requires SameAnswers(c, d, w)
    ensures Screen(c, w, p, g) == Screen(d, w, p, g)
  {
  }

  /** The body of the first loop: `deriveCredentialSchema` and the tests on its answer. */
  method ScreenGroup(service: AnonCredsTrustService, w: World, p: Proof, g: Group) returns (screening: Screening)
    modifies service
    ensures screening == Screen(old(service.View()), w, p, g)
    ensures SameAnswers(old(service.View()), service.View(), w)
  {
    var definition := DefinitionOf(p, g.name);
    if definition == "" {
      return Refused(NoAnswer(g.name));
    }
    ghost var before := service.View();
    var derived := service.DeriveCredentialSchema(w, CredentialDefinition(definition));
    forall r ensures Derive(service.View(), w, r) == Derive(before, w, r) {
      DeriveIsTransparent(before, w, CredentialDefinition(definition), r);
    }
    if derived.Err? {
      if CannotCheck(derived.error) {
        return Unread(Underivable(definition, derived.error));
      }
      return Refused(Underivable(definition, derived.error));
    }
    if derived.value.credentialSchema != g.credentialSchema {
      return Refused(WrongSchema(definition, derived.value.credentialSchema, g.name, g.credentialSchema));
    }
    if derived.value.issuer.None? || derived.value.issuer.value == "" {
      return Refused(NoIssuer(definition));
    }
    return Named(derived.value.issuer.value);
  }

  /** The first loop: findings and issuers, the issuers grouped by CredentialSchema. */
  method CollectIssuers(service: AnonCredsTrustService, w: World, p: Proof, groups: seq<Group>) returns (col: Collection)
    modifies service
    ensures col == Collect(old(service.View()), w, p, groups, |groups|)
  {
    col := NOTHING;
    ghost var c := service.View();
    for i := 0 to |groups|
      invariant SameAnswers(c, service.View(), w)
      invariant col == Collect(c, w, p, groups, i)
    {
      SameScreening(c, service.View(), w, p, groups[i]);
      var screening := ScreenGroup(service, w, p, groups[i]);
      col := Push(col, groups[i].credentialSchema, screening);
    }
  }

  // ---------------------------------------------------------------- checking the issuers

  /** The findings of the issuers of the given CredentialSchemas. */
  ghost predicate Checked(w: World, issuers: map<nat, seq<string>>, schemas: set<nat>,
                          unaccredited: seq<Finding>, unchecked: seq<Finding>) {
    && (forall f :: f in unaccredited <==>
          exists s, did :: s in schemas && s in issuers && did in issuers[s] && IssuerVerdict(w, did, s) == Fails(f))
    && (forall f :: f in unchecked <==>
          exists s, did :: s in schemas && s in issuers && did in issuers[s] && IssuerVerdict(w, did, s) == Unknown(f))
  }

  function Findings(dids: seq<string>, credentialSchema: nat): seq<Finding> {
    seq(|dids|, k requires 0 <= k < |dids| => NoParticipant(dids[k], credentialSchema))
  }

  lemma FindingsNameTheDids(dids: seq<string>, credentialSchema: nat, f: Finding)
    ensures f in Findings(dids, credentialSchema) <==>
            f.NoParticipant? && f.credentialSchema == credentialSchema && f.did in dids
  {
    if f.NoParticipant? && f.credentialSchema == credentialSchema && f.did in dids {
      var k :| 0 <= k < |dids| && dids[k] == f.did;
      assert Findings(dids, credentialSchema)[k] == f;
    }
  }

  /** The second loop: `findUnaccreditedDids` for every CredentialSchema. */
  method CheckIssuers(service: AnonCredsTrustService, w: World, issuers: map<nat, seq<string>>)
    returns (unaccredited: seq<Finding>, unchecked: seq<Finding>)
    ensures Checked(w, issuers, issuers.Keys, unaccredited, unchecked)
  {
    unaccredited, unchecked := [], [];
    var rest := issuers.Keys;
    while rest != {}
      invariant rest <= issuers.Keys
      invariant Checked(w, issuers, issuers.Keys - rest, unaccredited, unchecked)
      decreases |rest|
    {
      var s :| s in rest;
      var failed, unread := service.FindUnaccreditedDids(w, issuers[s], ISSUER, s);
      CheckedStep(w, issuers, issuers.Keys - rest, s, failed, unread, unaccredited, unchecked);
      unaccredited := unaccredited + Findings(failed, s);
      unchecked := unchecked + Findings(unread, s);
      rest := rest - {s};
    }
    assert issuers.Keys - {} == issuers.Keys;
  }

  lemma CheckedStep(w: World, issuers: map<nat, seq<string>>, schemas: set<nat>, s: nat, failed: seq<string>,
                    unread: seq<string>, unaccredited: seq<Finding>, unchecked: seq<Finding>)
    requires Checked(w, issuers, schemas, unaccredited, unchecked) && s in issuers
    requires forall did :: did in failed <==> did in issuers[s] && AuthorizationError(w, did, ISSUER, s) == Some(NotAuthorized)
    requires forall did :: did in unread <==> did in issuers[s] && AuthorizationError(w, did, ISSUER, s) == Some(Unavailable)
    ensures Checked(w, issuers, schemas + {s}, unaccredited + Findings(failed, s), unchecked + Findings(unread, s))
  {
    forall f ensures f in Findings(failed, s) <==> exists did :: did in issuers[s] && IssuerVerdict(w, did, s) == Fails(f) {
      FindingsNameTheDids(failed, s, f);
    }
    forall f ensures f in Findings(unread, s) <==> exists did :: did in issuers[s] && IssuerVerdict(w, did, s) == Unknown(f) {
      FindingsNameTheDids(unread, s, f);
    }
  }

  // ---------------------------------------------------------------- the decision

  /**
   * `applyAnonCredsTrustDecision` for a verifier with a presentation. An exchange without recorded
   * groups is abandoned unchecked. Otherwise it passes exactly when every group is satisfied, and says
   * that an issuer is not authorized exactly when some group is neither satisfied nor uncheckable; the
   * findings are those of the verdicts.
   */
  method Decide(service: AnonCredsTrustService, w: World, p: Proof, stored: Stored) returns (d: Decision)
    modifies service
    ensures DecidesBySatisfaction(old(service.View()), w, p, RequestedGroups(stored), d)
    ensures RequestedGroups(stored) == [] ==> d == Abandon(TrustResolutionUnavailable, [], [])
    ensures RequestedGroups(stored) != [] ==> Decides(old(service.View()), w, p, RequestedGroups(stored), d)
  {
    var groups := RequestedGroups(stored);
    if groups == [] {
      return Abandon(TrustResolutionUnavailable, [], []);
    }
    ghost var c := service.View();
    var col := CollectIssuers(service, w, p, groups);
    var failed, unread := CheckIssuers(service, w, col.issuers);
    CollectIsComplete(c, w, p, groups, |groups|);
    VerdictsAreFindings(c, w, p, groups, col, failed, unread);
    var unaccredited, unchecked := col.unaccredited + failed, col.unchecked + unread;
    assert unaccredited != [] ==> unaccredited[0] in unaccredited;
    assert unchecked != [] ==> unchecked[0] in unchecked;
    assert forall g :: g in groups && GroupVerdict(c, w, p, g).Fails? ==> GroupVerdict(c, w, p, g).finding in unaccredited;
    assert forall g :: g in groups && GroupVerdict(c, w, p, g).Unknown? ==> GroupVerdict(c, w, p, g).finding in unchecked;
    if unaccredited == [] && unchecked == [] {
      d := Pass;
    } else {
      d := Abandon(if unaccredited != [] then IssuerNotAuthorized else TrustResolutionUnavailable, unaccredited, unchecked);
    }
    VerdictsDecide(c, w, p, groups, d);
  }

  /** A finding of either loop is the verdict of some group, and the other way round. */
  lemma FindingIsVerdict(c: Caches, w: World, p: Proof, groups: seq<Group>, col: Collection, failed: seq<Finding>,
                            unread: seq<Finding>, v: Verdict)
    requires Collected(c, w, p, groups, |groups|, col)
    requires Checked(w, col.issuers, col.issuers.Keys, failed, unread)
    requires v.Fails? || v.Unknown?
    ensures (v.Fails? && v.finding in col.unaccredited + failed) || (v.Unknown? && v.finding in col.unchecked + unread) <==>
            exists g :: g in groups && GroupVerdict(c, w, p, g) == v
  {
    assert FindingOk(c, w, p, groups, |groups|, col, v.finding);
    var x := if v.Fails? then Refused(v.finding) else Unread(v.finding);
    if g :| g in groups && GroupVerdict(c, w, p, g) == v {
      if Screen(c, w, p, g).Named? {
        var did := Screen(c, w, p, g).issuer;
        assert NamedFor(c, w, p, groups, |groups|, g.credentialSchema, did);
        assert IssuerOk(c, w, p, groups, |groups|, col, g.credentialSchema, did);
        assert IssuerVerdict(w, did, g.credentialSchema) == v;
      } else {
        assert Screened(c, w, p, groups, |groups|, x);
      }
    }
    if Screened(c, w, p, groups, |groups|, x) {
      var k :| 0 <= k < |groups| && Screen(c, w, p, groups[k]) == x;
      assert groups[k] in groups && GroupVerdict(c, w, p, groups[k]) == v;
    } else if s, did :| s in col.issuers && did in col.issuers[s] && IssuerVerdict(w, did, s) == v {
      assert IssuerOk(c, w, p, groups, |groups|, col, s, did);
      var k :| 0 <= k < |groups| && groups[k].credentialSchema == s && Screen(c, w, p, groups[k]) == Named(did);
      assert groups[k] in groups && GroupVerdict(c, w, p, groups[k]) == v;
    }
  }

  /** What both loops found together is what the verdicts of the groups say. */
  lemma VerdictsAreFindings(c: Caches, w: World, p: Proof, groups: seq<Group>, col: Collection, failed: seq<Finding>,
                            unread: seq<Finding>)
    requires Collected(c, w, p, groups, |groups|, col)
    requires Checked(w, col.issuers, col.issuers.Keys, failed, unread)
    ensures forall f :: f in col.unaccredited + failed <==> exists g :: g in groups && GroupVerdict(c, w, p, g) == Fails(f)
    ensures forall f :: f in col.unchecked + unread <==> exists g :: g in groups && GroupVerdict(c, w, p, g) == Unknown(f)
  {
    forall f ensures f in col.unaccredited + failed <==> exists g :: g in groups && GroupVerdict(c, w, p, g) == Fails(f) {
      FindingIsVerdict(c, w, p, groups, col, failed, unread, Fails(f));
    }
    forall f ensures f in col.unchecked + unread <==> exists g :: g in groups && GroupVerdict(c, w, p, g) == Unknown(f) {
      FindingIsVerdict(c, w, p, groups, col, failed, unread, Unknown(f));
    }
  }

  // ---------------------------------------------------------------- the exchange

  datatype Role = Verifier | Prover

  datatype ProofState = PresentationReceived | Acknowledged | Abandoned | OtherState

  /** The agent may fail to read the record of the exchange or its presentation. */
  datatype Reading = NoRecord | NoPresentation | Presentation(anoncreds: Option<Proof>)

  class Exchange {
    const role: Role
    const stored: Stored
    const autoAccept: bool
    var state: ProofState
    var isVerified: Option<bool>
    var errorCode: Option<Code>
    /** Whether the reply of the inner handlers is still to be sent. */
    var responds: bool

    constructor (role: Role, stored: Stored, autoAccept: bool, state: ProofState)
      ensures this.role == role && this.stored == stored && this.autoAccept == autoAccept && this.state == state
      ensures isVerified == None && errorCode == None && responds
    {
      this.role, this.stored, this.autoAccept, this.state := role, stored, autoAccept, state;
      isVerified, errorCode, responds := None, None, true;
    }

    /** `abandonPresentation`: throws, before the state changes, when no protocol serves the exchange. */
    method AbandonPresentation(code: Code, protocolKnown: bool) returns (thrown: bool)
      modifies this`state, this`isVerified, this`errorCode
      ensures isVerified == Some(false) && errorCode == Some(code) && thrown == !protocolKnown
      ensures state == if protocolKnown then Abandoned else old(state)
    {
      isVerified := Some(false);
      errorCode := Some(code);
      if !protocolKnown { return true; }
      state := Abandoned;
      return false;
    }

    /** The AnonCreds presentation of a verifier satisfies every recorded group. */
    ghost predicate Satisfied(c: Caches, w: World, p: Proof)
      reads this
    {
      && RequestedGroups(stored) != []
      && forall g :: g in RequestedGroups(stored) ==> IsSatisfied(c, w, p, g)
    }

    /**
     * The middleware after a presentation message. A verifier lets an AnonCreds presentation stand only
     * if it satisfies every group, and acknowledges it only if it then also accepts automatically; a
     * presentation it cannot read, or that fails, ends in `Abandoned` without a reply.
     */
    method OnPresentation(service: AnonCredsTrustService, w: World, reading: Reading, protocolKnown: bool, accepts: bool)
      returns (thrown: bool)
      modifies this, service
      ensures state == Acknowledged && old(state) != Acknowledged ==>
                && autoAccept && old(state) == PresentationReceived && reading.Presentation?
                && (role == Verifier && reading.anoncreds.Some? ==>
                      old(Satisfied(service.View(), w, reading.anoncreds.value)))
      ensures role == Verifier && !thrown && reading == NoPresentation ==>
                state == Abandoned && errorCode == Some(TrustResolutionUnavailable) && !responds
      ensures role == Verifier && !thrown && reading.Presentation? && reading.anoncreds.Some? ==>
                if old(Satisfied(service.View(), w, reading.anoncreds.value)) then
                  isVerified == old(isVerified) && errorCode == old(errorCode) && responds == old(responds)
                else state == Abandoned && isVerified == Some(false) && errorCode.Some? && !responds
      ensures role == Verifier && reading.Presentation? && reading.anoncreds.Some? && RequestedGroups(stored) != [] &&
              !old(Satisfied(service.View(), w, reading.anoncreds.value)) ==>
                errorCode == Some(
                  if exists g :: g in RequestedGroups(stored) &&
                       !IsSatisfied(old(service.View()), w, reading.anoncreds.value, g) &&
                       !IsUncheckable(old(service.View()), w, reading.anoncreds.value, g)
                  then IssuerNotAuthorized else TrustResolutionUnavailable)
      ensures thrown ==> !protocolKnown
      ensures reading.Presentation? && autoAccept && old(state) == PresentationReceived && accepts &&
              (role == Verifier && reading.anoncreds.Some? ==> old(Satisfied(service.View(), w, reading.anoncreds.value))) ==>
                !thrown && state == Acknowledged
    {
      if !reading.Presentation? {
        responds := false;
        if reading == NoPresentation && role == Verifier {
          thrown := AbandonPresentation(TrustResolutionUnavailable, protocolKnown);
          return;
        }
        return false;
      }
      if role == Verifier && reading.anoncreds.Some? {
        var d := Decide(service, w, reading.anoncreds.value, stored);
        if d.Abandon? {
          thrown := AbandonPresentation(d.code, protocolKnown);
          if !thrown {
            responds := false;
          }
          return;
        }
      }
      if !autoAccept || state != PresentationReceived { return false; }
      if accepts {
        state := Acknowledged;
      }
      return false;
    }
  }
}
