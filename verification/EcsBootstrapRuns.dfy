/**
 * What boots leave behind, in the fields of the entries: which entry a goal submits, for which role and
 * with which validator, and that an entry whose boot was interrupted before its self-validation is
 * completed by the next boot, without a second start.
 *
 * Models packages/agent-sdk/src/bootstrap/EcsBootstrapService.ts on the state machine of EcsBootstrap.
 */
module EcsBootstrapRuns {
  import opened Options
  import opened EcsBootstrap

  // ---------------------------------------------------------------- which entry a goal reads and submits

  /** The agent onboards as HOLDER under another issuer or a parent, and as ISSUER otherwise. */
  predicate IsRoleOf(g: Goal, role: Role) {
    if g.AsHolder? || g.AsDelegate? then role == Holder else role == Issuer
  }

  /** An own entry, neither revoked nor slashed, that is in force, to come, or waits for its validator. */
  predicate Serves(p: Participant, schema: nat, role: Role) {
    && p.own && p.schema == schema && p.role == role && !p.revoked && !p.slashed
    && (p.activity == Active || p.activity == Future || p.pending)
  }

  /**
   * Once a boot has read the entries of its goal, it submits exactly when none of them serves; otherwise it
   * goes on to the Service schema, if that is still to come, or is done.
   */
  lemma ReadDecides(cfg: Config, s: State, role: Role)
    requires s.pc.ReadOwn? && IsRoleOf(s.pc.goal, role)
    ensures var t := Step(cfg, s, OwnKnown);
            && t == s.(pc := t.pc)
            && t.pc == if forall i :: 0 <= i < |s.participants| ==> !Serves(s.participants[i], s.pc.goal.schema, role)
                       then Prepare(s.pc.goal, s.pc.service)
                       else if s.pc.service.Some? then ReadOwn(AsServiceIssuer(s.pc.service.value), None) else Off
  {
    if HoldsAny(s, s.pc.goal.schema, role) {
      var i: nat :| i < |s.participants| && Holds(s, i, s.pc.goal.schema, role);
      assert Serves(s.participants[i], s.pc.goal.schema, role);
    }
    forall i: nat | i < |s.participants| && Serves(s.participants[i], s.pc.goal.schema, role)
      ensures Holds(s, i, s.pc.goal.schema, role)
    {
    }
  }

  /** The validator that a goal names, or that the agent finds for it. */
  predicate ValidatorOf(s: State, g: Goal, v: nat, selfCreate: bool) {
    && v < |s.participants|
    && (g.AsSelfIssuer? ==> v == g.root && !selfCreate)
    && (g.AsDelegate? ==> v == g.validator && !selfCreate)
    && (g.AsHolder? ==> !selfCreate && !s.participants[v].own && s.participants[v].role == Issuer)
    && (g.AsServiceIssuer? && s.participants[v].own ==> selfCreate && s.participants[v].role == Ecosystem)
    && (g.AsHolder? || g.AsServiceIssuer? ==>
          s.participants[v].activity == Active && !s.participants[v].revoked && !s.participants[v].slashed)
  }

  /** What a boot submits. */
  lemma SubmitsForGoal(cfg: Config, s: State, v: nat, selfCreate: bool, role: Role)
    requires Enabled(cfg, s, Submit(v, selfCreate)) && IsRoleOf(s.pc.goal, role)
    ensures ValidatorOf(s, s.pc.goal, v, selfCreate)
    ensures var t := Step(cfg, s, Submit(v, selfCreate));
            && t.mempool == s.mempool[s.nextTx := Create(s.pc.goal.schema, role, v, selfCreate)]
            && t.pc == AwaitCreate(s.nextTx, s.pc.goal, s.pc.service) && t.participants == s.participants
  {
  }

  // ---------------------------------------------------------------- what a boot waits for

  function GoalOf(pc: Pc): Option<Goal> {
    match pc
    case ReadOwn(goal, _) => Some(goal)
    case Prepare(goal, _) => Some(goal)
    case AwaitCreate(_, goal, _) => Some(goal)
    case _ => None
  }

  /** The root of a self-issuer is the agent's own. */
  ghost predicate RootOk(s: State) {
    GoalOf(s.pc).Some? && GoalOf(s.pc).value.AsSelfIssuer? ==>
      var root := GoalOf(s.pc).value.root; root < |s.participants| && s.participants[root].own
  }

  /** The transaction a boot waits for is the one of its goal. */
  ghost predicate AwaitedOk(s: State) {
    s.pc.AwaitCreate? ==>
      && s.pc.tx < s.nextTx
      && (s.pc.tx in s.mempool ==>
            var tx := s.mempool[s.pc.tx];
            && tx.Create? && tx.schema == s.pc.goal.schema && IsRoleOf(s.pc.goal, tx.role)
            && (s.pc.goal.AsSelfIssuer? ==> tx.validator == s.pc.goal.root && !tx.selfCreate)
            && (s.pc.goal.AsDelegate? ==> tx.validator == s.pc.goal.validator && !tx.selfCreate))
  }

  ghost predicate CreatedOk(s: State) {
    s.pc.Created? ==> s.pc.entry < |s.participants| && s.participants[s.pc.entry].own && SelfValidated(s, s.pc.entry)
  }

  ghost predicate WaitOk(s: State) {
    RootOk(s) && AwaitedOk(s) && CreatedOk(s)
  }

  lemma StepKeepsRoot(cfg: Config, s: State, a: Action)
    requires ChainOk(s) && WaitOk(s) && Enabled(cfg, s, a)
    ensures RootOk(Step(cfg, s, a)) && AwaitedOk(Step(cfg, s, a))
  {
  }

  lemma StepKeepsCreated(cfg: Config, s: State, a: Action)
    requires ChainOk(s) && WaitOk(s) && Enabled(cfg, s, a)
    ensures CreatedOk(Step(cfg, s, a))
  {
    if s.pc.Created? {
      SameValidator(cfg, s, a, s.pc.entry);
    }
  }

  lemma {:induction false} RunKeepsWait(cfg: Config, actions: seq<Action>)
    requires Run(cfg, actions).Some?
    ensures ChainOk(Run(cfg, actions).value) && WaitOk(Run(cfg, actions).value)
  {
    if actions != [] {
      var s, a := Run(cfg, actions[..|actions| - 1]).value, actions[|actions| - 1];
      RunKeepsWait(cfg, actions[..|actions| - 1]);
      StepKeepsChain(cfg, s, a);
      StepKeepsRoot(cfg, s, a);
      StepKeepsCreated(cfg, s, a);
    }
  }

  /**
   * In every run a delegated boot leaves a HOLDER entry of the agent for the schema, started with the parent
   * as its validator and waiting for it; and that ends the boot.
   */
  lemma DelegatedBootLeaves(cfg: Config, s: State, schema: nat, parent: nat)
    requires Reachable(cfg, s) && s.pc.AwaitCreate? && s.pc.goal == AsDelegate(schema, parent)
    requires s.pc.tx in s.mempool
    ensures Enabled(cfg, s, Include(s.pc.tx))
    ensures var t := Step(cfg, s, Include(s.pc.tx));
            && t.participants == s.participants +
                 [Participant(true, schema, Holder, Inactive, true, false, false, Some(parent))]
            && (s.pc.service == None ==> t.pc == Off)
  {
    var actions :| Run(cfg, actions) == Some(s);
    RunKeepsWait(cfg, actions);
  }

  /** The transaction of a self-issuer lands: the entry waits, and the boot goes on to validate it. */
  lemma StartLands(cfg: Config, s: State, schema: nat, root: nat) returns (t: State)
    requires Reachable(cfg, s) && s.pc.AwaitCreate? && s.pc.goal == AsSelfIssuer(schema, root)
    requires s.pc.tx in s.mempool
    ensures Reachable(cfg, t) && t.pc == Created(|s.participants|, s.pc.service)
    ensures t.participants == s.participants + [Participant(true, schema, Issuer, Inactive, true, false, false, Some(root))]
  {
    var actions :| Run(cfg, actions) == Some(s);
    RunKeepsWait(cfg, actions);
    ReachStep(cfg, s, Include(s.pc.tx));
    t := Step(cfg, s, Include(s.pc.tx));
  }

  /** Uninterrupted, that boot has its new entry validated. */
  lemma ValidationLands(cfg: Config, s: State) returns (t: State)
    requires Reachable(cfg, s) && s.pc.Created? && s.pc.entry < |s.participants| && Resumable(s.participants[s.pc.entry])
    ensures Reachable(cfg, t) && s.pc.entry in t.validated
    ensures t.pc == if s.pc.service.Some? then ReadOwn(AsServiceIssuer(s.pc.service.value), None) else Off
    ensures t.participants ==
            s.participants[s.pc.entry := s.participants[s.pc.entry].(activity := Active, pending := false)]
  {
    ReachStep(cfg, s, SubmitValidation);
    var u := Step(cfg, s, SubmitValidation);
    assert u.mempool[s.nextTx] == Validate(s.pc.entry) && u.pc == AwaitValidate(s.nextTx, s.pc.service);
    ReachStep(cfg, u, Include(s.nextTx));
    t := Step(cfg, u, Include(s.nextTx));
  }

  /**
   * A boot that controls the root starts an ISSUER entry under it and, uninterrupted, validates it at once:
   * the entry is in force and waits no more.
   */
  lemma SelfIssuerBootLeaves(cfg: Config, s: State, schema: nat, root: nat) returns (t: State)
    requires Reachable(cfg, s) && s.pc.AwaitCreate? && s.pc.goal == AsSelfIssuer(schema, root)
    requires s.pc.tx in s.mempool
    ensures Reachable(cfg, t) && (t.pc == if s.pc.service.Some? then ReadOwn(AsServiceIssuer(s.pc.service.value), None) else Off)
    ensures t.participants == s.participants + [Participant(true, schema, Issuer, Active, false, false, false, Some(root))]
    ensures |s.participants| in t.validated
  {
    t := StartLands(cfg, s, schema, root);
    t := ValidationLands(cfg, t);
  }

  // ---------------------------------------------------------------- an interrupted entry

  /** An own entry that waits for its validator, and is neither revoked nor slashed. */
  predicate Waits(p: Participant) {
    p.own && p.pending && !p.revoked && !p.slashed
  }

  /** Entry `e` is as it was, or the agent has validated it. */
  ghost predicate Kept(s: State, e: nat, p: Participant) {
    && e < |s.participants|
    && (s.participants[e] == p || (e in s.validated && s.participants[e] == p.(activity := Active, pending := false)))
  }

  /** From action `n` on nobody degrades entry `e`. */
  ghost predicate Undisturbed(actions: seq<Action>, n: nat, e: nat) {
    forall j :: n <= j < |actions| ==> !(actions[j].Degrade? && actions[j].id == e)
  }

  lemma StepKeepsEntry(cfg: Config, s: State, a: Action, e: nat, p: Participant)
    requires Kept(s, e, p) && Enabled(cfg, s, a) && !(a.Degrade? && a.id == e)
    ensures Kept(Step(cfg, s, a), e, p) && s.validated <= Step(cfg, s, a).validated
  {
  }

  lemma {:induction false} EntryIsKept(cfg: Config, actions: seq<Action>, n: nat, e: nat)
    requires n <= |actions| && Run(cfg, actions).Some? && Undisturbed(actions, n, e)
    requires Run(cfg, actions[..n]).Some? && e < |Run(cfg, actions[..n]).value.participants|
    ensures Kept(Run(cfg, actions).value, e, Run(cfg, actions[..n]).value.participants[e])
    decreases |actions|
  {
    if n == |actions| {
      assert actions[..n] == actions;
    } else {
      var before := actions[..|actions| - 1];
      assert before[..n] == actions[..n];
      EntryIsKept(cfg, before, n, e);
      StepKeepsEntry(cfg, Run(cfg, before).value, actions[|actions| - 1], e, Run(cfg, actions[..n]).value.participants[e]);
    }
  }

  lemma {:induction false} PrefixRuns(cfg: Config, actions: seq<Action>, n: nat)
    requires n <= |actions| && Run(cfg, actions).Some?
    ensures Run(cfg, actions[..n]).Some?
    decreases |actions|
  {
    if n == |actions| {
      assert actions[..n] == actions;
    } else {
      var before := actions[..|actions| - 1];
      assert before[..n] == actions[..n];
      PrefixRuns(cfg, before, n);
    }
  }

  /** After action `k` no new boot begins. */
  ghost predicate SameBoot(actions: seq<Action>, k: nat) {
    forall j :: k < j < |actions| ==> !actions[j].Boot?
  }

  lemma StepKeepsList(cfg: Config, s: State, a: Action)
    requires Enabled(cfg, s, a) && !a.Boot? && s.pc != Listing
    ensures Step(cfg, s, a).listed == s.listed && Step(cfg, s, a).pc != Listing
    ensures s.validated <= Step(cfg, s, a).validated
  {
  }

  /** The list of a boot stays, and so does what is validated. */
  lemma {:induction false} ListStays(cfg: Config, actions: seq<Action>, k: nat)
    requires k < |actions| && Run(cfg, actions).Some? && SameBoot(actions, k) && actions[k].List?
    requires Run(cfg, actions[..k + 1]).Some?
    ensures Run(cfg, actions).value.listed == Run(cfg, actions[..k + 1]).value.listed
    ensures Run(cfg, actions).value.pc != Listing
    ensures Run(cfg, actions[..k + 1]).value.validated <= Run(cfg, actions).value.validated
    decreases |actions|
  {
    if k + 1 == |actions| {
      assert actions[..k + 1] == actions;
    } else {
      var before := actions[..|actions| - 1];
      assert before[..k + 1] == actions[..k + 1];
      ListStays(cfg, before, k);
      StepKeepsList(cfg, Run(cfg, before).value, actions[|actions| - 1]);
    }
  }

  lemma {:induction false} OwnerStays(cfg: Config, actions: seq<Action>, n: nat, e: nat)
    requires n <= |actions| && Run(cfg, actions).Some? && Run(cfg, actions[..n]).Some?
    requires SelfValidated(Run(cfg, actions[..n]).value, e)
    ensures SelfValidated(Run(cfg, actions).value, e)
    decreases |actions|
  {
    if n == |actions| {
      assert actions[..n] == actions;
    } else {
      var before := actions[..|actions| - 1];
      assert before[..n] == actions[..n];
      OwnerStays(cfg, before, n, e);
      RunKeepsWait(cfg, before);
      SameValidator(cfg, Run(cfg, before).value, actions[|actions| - 1], e);
    }
  }

  /** Reading its entries, a boot lists the waiting one, unless the agent has validated it before. */
  lemma ListFinds(cfg: Config, s: State, e: nat, p: Participant)
    requires s.pc == Listing && Kept(s, e, p) && Waits(p)
    ensures e in Step(cfg, s, List(true)).listed || e in Step(cfg, s, List(true)).validated
  {
    PendingAreListed(s.participants, |s.participants|);
  }

  lemma NextOfRun(cfg: Config, actions: seq<Action>, k: nat)
    requires k < |actions| && Run(cfg, actions[..k + 1]).Some?
    ensures Run(cfg, actions[..k]).Some? && Enabled(cfg, Run(cfg, actions[..k]).value, actions[k])
    ensures Run(cfg, actions[..k + 1]).value == Step(cfg, Run(cfg, actions[..k]).value, actions[k])
  {
    assert actions[..k + 1][..k] == actions[..k];
  }

  /** The entry just before action `k`. */
  lemma EntryBefore(cfg: Config, actions: seq<Action>, n: nat, k: nat, e: nat)
    requires n <= k <= |actions| && Run(cfg, actions[..n]).Some? && Run(cfg, actions[..k]).Some? && Undisturbed(actions, n, e)
    requires e < |Run(cfg, actions[..n]).value.participants|
    ensures Kept(Run(cfg, actions[..k]).value, e, Run(cfg, actions[..n]).value.participants[e])
  {
    assert actions[..k][..n] == actions[..n];
    EntryIsKept(cfg, actions[..k], n, e);
  }

  /** The same at the moment of the list in a run. */
  lemma RunFindsEntry(cfg: Config, actions: seq<Action>, n: nat, k: nat, e: nat)
    requires n <= k < |actions| && Run(cfg, actions[..n]).Some? && Run(cfg, actions[..k + 1]).Some?
    requires Undisturbed(actions, n, e) && actions[k] == List(true)
    requires e < |Run(cfg, actions[..n]).value.participants| && Waits(Run(cfg, actions[..n]).value.participants[e])
    ensures e in Run(cfg, actions[..k + 1]).value.listed || e in Run(cfg, actions[..k + 1]).value.validated
  {
    NextOfRun(cfg, actions, k);
    EntryBefore(cfg, actions, n, k, e);
    ListFinds(cfg, Run(cfg, actions[..k]).value, e, Run(cfg, actions[..n]).value.participants[e]);
  }

  /**
   * Nothing but an interruption ends the loop before every listed entry has been taken up: each step leaves
   * the entries to do as they are or takes the first one off, failures included, and only an empty list
   * leads on.
   */
  lemma LoopGoesOn(cfg: Config, s: State, a: Action)
    requires Enabled(cfg, s, a) && !a.Interrupt?
    requires s.pc.Resuming? || s.pc.FlowKnown? || s.pc.AwaitResume?
    ensures var t := Step(cfg, s, a);
            if Open(s.pc) == [] then t.pc == s.pc || t.pc == Gate
            else && (t.pc.Resuming? || t.pc.FlowKnown? || t.pc.AwaitResume?)
                 && (Open(t.pc) == Open(s.pc) || Open(t.pc) == Open(s.pc)[1..])
                 && (a.Drop? && s.pc.AwaitResume? && s.pc.tx == a.tx ==>
                       t.pc == Resuming(s.pc.todo) && t.unresumed == s.unresumed + {s.pc.entry})
  {
  }

  /** Once the loop is over, a listed entry that the agent validates itself is dealt with. */
  lemma LoopDealsWith(cfg: Config, actions: seq<Action>, e: nat)
    requires Run(cfg, actions).Some? && Resumed(Run(cfg, actions).value.pc) && SelfValidated(Run(cfg, actions).value, e)
    requires e in Run(cfg, actions).value.listed || e in Run(cfg, actions).value.validated
    ensures var t := Run(cfg, actions).value;
            e < |t.participants| && (e in t.unresumed || (e in t.validated && !t.participants[e].pending))
  {
    RunKeepsResume(cfg, actions);
    assert e in Run(cfg, actions).value.listed ==> DealtWith(Run(cfg, actions).value, e);
  }

  /** An own entry that waits for its validator, which the agent controls, is completed by the next boot. */
  lemma WaitingEntryCompletes(cfg: Config, actions: seq<Action>, n: nat, k: nat, e: nat)
    requires n <= k < |actions| && Run(cfg, actions).Some? && Run(cfg, actions[..n]).Some?
    requires SelfValidated(Run(cfg, actions[..n]).value, e) && Waits(Run(cfg, actions[..n]).value.participants[e])
    requires Undisturbed(actions, n, e)
    requires actions[k] == List(true) && SameBoot(actions, k) && Resumed(Run(cfg, actions).value.pc)
    ensures var t := Run(cfg, actions).value;
            e < |t.participants| && (e in t.unresumed || (e in t.validated && !t.participants[e].pending))
  {
    PrefixRuns(cfg, actions, k + 1);
    RunFindsEntry(cfg, actions, n, k, e);
    ListStays(cfg, actions, k);
    OwnerStays(cfg, actions, n, e);
    LoopDealsWith(cfg, actions, e);
  }

  /**
   * Main result. A boot has started a self-issued entry and is interrupted before it validates it. When a
   * later boot that could read its entries leaves its resume loop, the agent has validated the entry and it
   * waits no more, unless that boot gave it up because its flow had ended or a call failed, or somebody
   * degraded it in between.
   */
  lemma NextBootCompletes(cfg: Config, actions: seq<Action>, n: nat, k: nat, e: nat)
    requires n < k < |actions| && Run(cfg, actions).Some? && Run(cfg, actions[..n]).Some?
    requires Run(cfg, actions[..n]).value.pc.Created? && Run(cfg, actions[..n]).value.pc.entry == e && actions[n] == Interrupt
    requires e < |Run(cfg, actions[..n]).value.participants| ==> Waits(Run(cfg, actions[..n]).value.participants[e])
    requires Undisturbed(actions, n, e)
    requires actions[k] == List(true) && SameBoot(actions, k) && Resumed(Run(cfg, actions).value.pc)
    ensures var t := Run(cfg, actions).value;
            e < |t.participants| && (e in t.unresumed || (e in t.validated && !t.participants[e].pending))
  {
    RunKeepsWait(cfg, actions[..n]);
    WaitingEntryCompletes(cfg, actions, n, k, e);
  }

  /**
   * And the interrupted entry gets no second start: as long as nobody degrades it, no transaction that
   * creates another entry for its schema and role is ever on its way, and no other such entry serves.
   */
  lemma NoSecondCreate(cfg: Config, actions: seq<Action>, n: nat, e: nat)
    requires !cfg.lateTransactions && !cfg.racingOperator
    requires n <= |actions| && Run(cfg, actions).Some? && Run(cfg, actions[..n]).Some?
    requires var s := Run(cfg, actions[..n]).value;
             e < |s.participants| && Waits(s.participants[e]) && (s.participants[e].role == Holder || s.participants[e].role == Issuer)
    requires Undisturbed(actions, n, e)
    ensures var p, t := Run(cfg, actions[..n]).value.participants[e], Run(cfg, actions).value;
            && (forall tx :: tx in t.mempool && t.mempool[tx].Create? ==>
                  t.mempool[tx].schema != p.schema || t.mempool[tx].role != p.role)
            && (forall i :: 0 <= i < |t.participants| && i != e ==> !Serves(t.participants[i], p.schema, p.role))
  {
    var p, t := Run(cfg, actions[..n]).value.participants[e], Run(cfg, actions).value;
    EntryIsKept(cfg, actions, n, e);
    RunKeepsInv(cfg, actions);
    assert Holds(t, e, p.schema, p.role);
    forall tx | tx in t.mempool && t.mempool[tx].Create?
      ensures t.mempool[tx].schema != p.schema || t.mempool[tx].role != p.role
    {
      if t.mempool[tx].schema == p.schema && t.mempool[tx].role == p.role {
        assert Creates(t, tx, p.schema, p.role);
      }
    }
    forall i | 0 <= i < |t.participants| && i != e ensures !Serves(t.participants[i], p.schema, p.role) {
      assert Serves(t.participants[i], p.schema, p.role) ==> Holds(t, i, p.schema, p.role);
    }
  }
}
