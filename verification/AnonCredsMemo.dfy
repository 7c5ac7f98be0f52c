/**
 * The memo maps of the AnonCreds derivation under interleaving: a call reads the maps, awaits its reads
 * from the outside, and sets the maps only then, so that overlapping calls can set them twice.
 *
 * Models `deriveCredentialSchema` and `resolveCredentialSchemaLink` of
 * packages/agent-sdk/src/blockchain/AnonCredsTrustService.ts as a state machine whose steps are the
 * stretches of code between awaits. Every step may see another world; the reads for one link count as
 * one.
 */
module AnonCredsMemo {
  import opened Options
  import opened AnonCredsTrust

  datatype Request = Derivation(reference: Reference) | Resolution(vtjsc: string)

  /** `Linked` has its link, read or kept, and has not resumed yet. */
  datatype Stage =
    | Resolving
    | Fetching(found: AnonCredsObject)
    | Linked(found: AnonCredsObject, link: Link)
    | Answered(answer: Result<Derived, Reason>)

  datatype Call = Call(request: Request, stage: Stage)

  datatype State = State(caches: Caches, calls: seq<Call>)

  /** `overlaps`: a call may start before the calls before it have answered. */
  datatype Config = Config(overlaps: bool)

  datatype Action =
    | Start(request: Request)
    | ObjectResolved(call: nat, w: World)
    | LinkFetched(call: nat, w: World)
    | Resume(call: nat)

  const START := State(EMPTY_CACHES, [])

  // ---------------------------------------------------------------- the code between two awaits

  function DerivedFrom(found: AnonCredsObject, link: Link): Derived {
    Derived(link.credentialSchema, link.ecosystem, found.vtjsc, found.schema, found.issuer)
  }

  /** `resolveCredentialSchemaLink` up to its first read. */
  function StartLink(c: Caches, found: AnonCredsObject): Stage {
    if found.vtjsc in c.links then Linked(found, c.links[found.vtjsc]) else Fetching(found)
  }

  /** A resolution looks for the link of a VTJSC alone. */
  function FirstStage(c: Caches, request: Request): Stage {
    match request
    case Derivation(r) => if Key(r) in c.derivations then Answered(Ok(c.derivations[Key(r)])) else Resolving
    case Resolution(vtjsc) => StartLink(c, AnonCredsObject(vtjsc, "", None))
  }

  function At(s: State, i: nat, stage: Stage): State
    requires i < |s.calls|
  {
    s.(calls := s.calls[i := s.calls[i].(stage := stage)])
  }

  predicate Ready(s: State, a: Action) {
    match a
    case Start(_) => true
    case ObjectResolved(i, _) => i < |s.calls| && s.calls[i].stage == Resolving && s.calls[i].request.Derivation?
    case LinkFetched(i, _) => i < |s.calls| && s.calls[i].stage.Fetching?
    case Resume(i) => i < |s.calls| && s.calls[i].stage.Linked?
  }

  predicate AllAnswered(s: State) {
    forall i :: 0 <= i < |s.calls| ==> s.calls[i].stage.Answered?
  }

  predicate Enabled(cfg: Config, s: State, a: Action) {
    Ready(s, a) && (a.Start? ==> cfg.overlaps || AllAnswered(s))
  }

  function Step(s: State, a: Action): State
    requires Ready(s, a)
  {
    match a
    case Start(request) => s.(calls := s.calls + [Call(request, FirstStage(s.caches, request))])
    case ObjectResolved(i, w) =>
      (match ResolveObject(w, s.calls[i].request.reference)
       case Err(reason) => At(s, i, Answered(Err(reason)))
       case Ok(found) => At(s, i, StartLink(s.caches, found)))
    case LinkFetched(i, w) =>
      var found := s.calls[i].stage.found;
      (match ResolveLink(w, found.vtjsc)
       case Err(reason) => At(s, i, Answered(Err(reason)))
       case Ok(link) => At(s, i, Linked(found, link)).(caches := s.caches.(links := s.caches.links[found.vtjsc := link])))
    case Resume(i) =>
      var derived := DerivedFrom(s.calls[i].stage.found, s.calls[i].stage.link);
      var answered := At(s, i, Answered(Ok(derived)));
      if s.calls[i].request.Resolution? then answered
      else answered.(caches := s.caches.(derivations := s.caches.derivations[Key(s.calls[i].request.reference) := derived]))
  }

  ghost function Run(cfg: Config, actions: seq<Action>): Option<State> {
    if actions == [] then Some(START)
    else match Run(cfg, actions[..|actions| - 1])
      case None => None
      case Some(s) =>
        var a := actions[|actions| - 1];
        if Enabled(cfg, s, a) then Some(Step(s, a)) else None
  }

  ghost predicate Reachable(cfg: Config, s: State) {
    exists actions :: Run(cfg, actions) == Some(s)
  }

  lemma ReachStep(cfg: Config, s: State, a: Action)
    requires Reachable(cfg, s) && Enabled(cfg, s, a)
    ensures Reachable(cfg, Step(s, a))
  {
    var actions :| Run(cfg, actions) == Some(s);
    assert (actions + [a])[..|actions + [a]| - 1] == actions;
    assert Run(cfg, actions + [a]) == Some(Step(s, a));
  }

  // ---------------------------------------------------------------- one call without overlap

  /** The steps of one derivation in one world that nothing interleaves with. */
  function Alone(s: State, w: World, r: Reference): State {
    var i := |s.calls|;
    var s1 := Step(s, Start(Derivation(r)));
    var s2 := if s1.calls[i].stage.Resolving? then Step(s1, ObjectResolved(i, w)) else s1;
    var s3 := if s2.calls[i].stage.Fetching? then Step(s2, LinkFetched(i, w)) else s2;
    if s3.calls[i].stage.Linked? then Step(s3, Resume(i)) else s3
  }

  /** Alone, a call answers and leaves the memo maps as the specification of the whole call says. */
  lemma AloneIsDerive(s: State, w: World, r: Reference)
    ensures var t := Alone(s, w, r);
            && |t.calls| == |s.calls| + 1 && t.calls[|s.calls|].stage == Answered(Derive(s.caches, w, r))
            && t.caches == AfterDerive(s.caches, w, r)
  {
    if Derive(s.caches, w, r).Ok? && Key(r) !in s.caches.derivations {
      var vtjsc := ResolveObject(w, r).value.vtjsc;
      assert vtjsc in s.caches.links ==> s.caches.links[vtjsc := s.caches.links[vtjsc]] == s.caches.links;
    }
  }

  // ---------------------------------------------------------------- what the maps keep

  /** Every kept link was read from the world of some step. */
  ghost predicate LinksWereRead(actions: seq<Action>, links: map<string, Link>) {
    forall v :: v in links ==> WasRead(actions, v, links[v])
  }

  ghost predicate WasRead(actions: seq<Action>, v: string, link: Link) {
    exists n :: 0 <= n < |actions| && actions[n].LinkFetched? && ResolveLink(actions[n].w, v) == Ok(link)
  }

  /** However calls overlap, a kept link once bound its VTJSC. */
  lemma {:induction false} KeptLinksWereRead(cfg: Config, actions: seq<Action>)
    requires Run(cfg, actions).Some?
    ensures LinksWereRead(actions, Run(cfg, actions).value.caches.links)
  {
    if actions != [] {
      var m := |actions| - 1;
      var s, t := Run(cfg, actions[..m]).value, Run(cfg, actions).value;
      KeptLinksWereRead(cfg, actions[..m]);
      forall v | v in t.caches.links ensures WasRead(actions, v, t.caches.links[v]) {
        if v in s.caches.links && t.caches.links[v] == s.caches.links[v] {
          var n :| 0 <= n < m && actions[..m][n].LinkFetched? && ResolveLink(actions[..m][n].w, v) == Ok(s.caches.links[v]);
          assert actions[n] == actions[..m][n];
        } else {
          assert ResolveLink(actions[m].w, v) == Ok(t.caches.links[v]);
        }
      }
    }
  }

  predicate Gives(s: State, i: nat, r: Reference, d: Derived) {
    i < |s.calls| && s.calls[i] == Call(Derivation(r), Answered(Ok(d)))
  }

  /** Calls for one object that find it give one answer. */
  ghost predicate AnswersStay(s: State) {
    forall i, j, r, d, e :: Gives(s, i, r, d) && Gives(s, j, r, e) ==> d == e
  }

  predicate Agrees(c: Caches, d: Derived) {
    d.vtjsc in c.links && c.links[d.vtjsc] == Link(d.credentialSchema, d.ecosystem)
  }

  /** Every kept derivation names the kept link of its VTJSC. */
  ghost predicate DerivationsAgree(s: State) {
    forall k :: k in s.caches.derivations ==> Agrees(s.caches, s.caches.derivations[k])
  }

  /** Given answers are kept, and only the last call is open; it holds nothing that the maps hold otherwise. */
  ghost predicate Inv(s: State) {
    && DerivationsAgree(s)
    && (forall i, r, d :: Gives(s, i, r, d) ==> Key(r) in s.caches.derivations && s.caches.derivations[Key(r)] == d)
    && (forall i: nat :: i < |s.calls| && !s.calls[i].stage.Answered? ==> i == |s.calls| - 1 && OpenOk(s.caches, s.calls[i]))
  }

  predicate OpenOk(c: Caches, call: Call) {
    && (call.request.Derivation? ==> Key(call.request.reference) !in c.derivations)
    && (call.stage.Fetching? ==> call.stage.found.vtjsc !in c.links)
    && (call.stage.Linked? ==> call.stage.found.vtjsc in c.links && c.links[call.stage.found.vtjsc] == call.stage.link)
  }

  lemma StepKeepsInv(s: State, a: Action)
    requires Inv(s) && Enabled(Config(false), s, a)
    ensures Inv(Step(s, a))
  {
    var t := Step(s, a);
    forall i, r, d | Gives(t, i, r, d) ensures Key(r) in t.caches.derivations && t.caches.derivations[Key(r)] == d {
      if Gives(s, i, r, d) {
        assert a.Resume? ==> a.call != i && OpenOk(s.caches, s.calls[a.call]);
      } else {
        assert a.Start? || a.Resume?;
      }
    }
    forall k | k in t.caches.derivations ensures Agrees(t.caches, t.caches.derivations[k]) {
      if k in s.caches.derivations && t.caches.derivations[k] == s.caches.derivations[k] {
        assert Agrees(s.caches, s.caches.derivations[k]);
        assert a.LinkFetched? ==> OpenOk(s.caches, s.calls[a.call]);
      } else {
        assert a.Resume? && OpenOk(s.caches, s.calls[a.call]);
      }
    }
  }

  lemma {:induction false} RunKeepsInv(actions: seq<Action>)
    requires Run(Config(false), actions).Some?
    ensures Inv(Run(Config(false), actions).value)
  {
    if actions != [] {
      RunKeepsInv(actions[..|actions| - 1]);
      StepKeepsInv(Run(Config(false), actions[..|actions| - 1]).value, actions[|actions| - 1]);
    }
  }

  // ---------------------------------------------------------------- overlapping calls

  /** A world in which both objects relate to the VTJSC "v", and the VTJSC binds to schema `id` of "e". */
  function WorldWith(id: nat): World {
    var o := AnonCredsObject("v", "s", None);
    World(map[CredentialDefinition("c") := Some(o), AnonCredsSchema("s") := Some(o)], map[],
          map["v" := Document(ValidProof, Some(("chain", id)), Some("e"))], Some("chain"),
          map[id := Some(0)], map[0 := Some("e")], map[])
  }

  lemma WorldLinks(id: nat)
    ensures ResolveLink(WorldWith(id), "v") == Ok(Link(id, "e"))
    ensures ResolveObject(WorldWith(id), CredentialDefinition("c")) == Ok(AnonCredsObject("v", "s", None))
    ensures ResolveObject(WorldWith(id), AnonCredsSchema("s")) == Ok(AnonCredsObject("v", "s", None))
  {
    var w := WorldWith(id);
    assert ReadFrom(w.credentialSchemas, id) == Ok(0) && ReadFrom(w.ecosystems, 0) == Ok("e");
  }

  /** Two derivations start together and resolve their objects. */
  lemma TwoStarts(q: Reference) returns (s: State)
    requires q == CredentialDefinition("c") || q == AnonCredsSchema("s")
    ensures Reachable(Config(true), s)
    ensures var o := AnonCredsObject("v", "s", None);
            s == State(EMPTY_CACHES, [Call(Derivation(CredentialDefinition("c")), Fetching(o)), Call(Derivation(q), Fetching(o))])
  {
    var cfg := Config(true);
    var c := CredentialDefinition("c");
    WorldLinks(1);
    assert Run(cfg, []) == Some(START);
    ReachStep(cfg, START, Start(Derivation(c)));
    var s1 := Step(START, Start(Derivation(c)));
    ReachStep(cfg, s1, Start(Derivation(q)));
    var s2 := Step(s1, Start(Derivation(q)));
    assert s2 == State(EMPTY_CACHES, [Call(Derivation(c), Resolving), Call(Derivation(q), Resolving)]);
    ReachStep(cfg, s2, ObjectResolved(0, WorldWith(1)));
    var s3 := Step(s2, ObjectResolved(0, WorldWith(1)));
    ReachStep(cfg, s3, ObjectResolved(1, WorldWith(1)));
    s := Step(s3, ObjectResolved(1, WorldWith(1)));
  }

  /** A call that fetches its link in a world reads it and answers. */
  lemma FetchAndAnswer(s: State, i: nat, r: Reference, id: nat) returns (t: State)
    requires Reachable(Config(true), s) && i < |s.calls|
    requires s.calls[i] == Call(Derivation(r), Fetching(AnonCredsObject("v", "s", None)))
    ensures Reachable(Config(true), t)
    ensures var d := Derived(id, "e", "v", "s", None);
            && t.calls == s.calls[i := Call(Derivation(r), Answered(Ok(d)))]
            && t.caches == Caches(s.caches.derivations[Key(r) := d], s.caches.links["v" := Link(id, "e")])
  {
    var cfg := Config(true);
    WorldLinks(id);
    ReachStep(cfg, s, LinkFetched(i, WorldWith(id)));
    var u := Step(s, LinkFetched(i, WorldWith(id)));
    assert u.calls[i].stage == Linked(AnonCredsObject("v", "s", None), Link(id, "e"));
    ReachStep(cfg, u, Resume(i));
    t := Step(u, Resume(i));
  }

  /** The world changes before the second one has read its link. */
  lemma TwoDerivations(q: Reference) returns (s: State)
    requires q == CredentialDefinition("c") || q == AnonCredsSchema("s")
    ensures Reachable(Config(true), s)
    ensures s.calls == [Call(Derivation(CredentialDefinition("c")), Answered(Ok(Derived(1, "e", "v", "s", None)))),
                        Call(Derivation(q), Answered(Ok(Derived(2, "e", "v", "s", None))))]
    ensures s.caches.links == map["v" := Link(2, "e")]
    ensures q != CredentialDefinition("c") ==>
              Key(CredentialDefinition("c")) in s.caches.derivations &&
              s.caches.derivations[Key(CredentialDefinition("c"))] == Derived(1, "e", "v", "s", None)
  {
    var c := CredentialDefinition("c");
    var s1 := TwoStarts(q);
    var s2 := FetchAndAnswer(s1, 0, c, 1);
    s := FetchAndAnswer(s2, 1, q, 2);
    if q != c {
      assert Key(q)[0] == 's' && Key(c)[0] == 'c';
    }
  }

  /** Overlapping calls: two answers for one object, and a derivation that contradicts the kept link for good. */
  lemma OverlapContradicts() returns (s: State, t: State)
    ensures Reachable(Config(true), s) && AllAnswered(s) && !AnswersStay(s)
    ensures Reachable(Config(true), t) && AllAnswered(t) && !DerivationsAgree(t)
  {
    s := TwoDerivations(CredentialDefinition("c"));
    assert Gives(s, 0, CredentialDefinition("c"), Derived(1, "e", "v", "s", None));
    assert Gives(s, 1, CredentialDefinition("c"), Derived(2, "e", "v", "s", None));
    t := TwoDerivations(AnonCredsSchema("s"));
    assert !Agrees(t.caches, t.caches.derivations[Key(CredentialDefinition("c"))]);
  }

  /**
   * Main result. Across any changes of the world, calls for one object that find it all answer the same,
   * and every kept derivation names the kept link of its VTJSC: in every run exactly when calls do not
   * overlap.
   */
  lemma AnswersStayIff(cfg: Config)
    ensures (forall s :: Reachable(cfg, s) ==> AnswersStay(s)) <==> !cfg.overlaps
    ensures (forall s :: Reachable(cfg, s) ==> DerivationsAgree(s)) <==> !cfg.overlaps
  {
    if cfg.overlaps {
      var s, t := OverlapContradicts();
      assert cfg == Config(true);
    } else {
      assert cfg == Config(false);
      forall s | Reachable(cfg, s) ensures AnswersStay(s) && DerivationsAgree(s) {
        var actions :| Run(cfg, actions) == Some(s);
        RunKeepsInv(actions);
      }
    }
  }
}
