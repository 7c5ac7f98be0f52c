/**
 * The boot sequence that provisions the Participant entries of the agent. A start transaction costs a
 * deposit that nothing gives back, so an interrupted boot must not lead to a second entry.
 *
 * Models packages/agent-sdk/src/bootstrap/EcsBootstrapService.ts as a state machine whose steps are the
 * stretches of code between two awaits; the process may be interrupted at any of them. The indexer is
 * truthful: a read answers with the entries on chain at that moment. The pending offers, the DIDComm
 * side of an onboarding and the classification of schemas are not part of this model.
 */
module EcsBootstrap {
  import opened Options

  datatype Role = Holder | Issuer | IssuerGrantor | Ecosystem

  datatype Activity = Active | Future | Inactive

  /** A Participant entry; `own` tells whether it names the DID of the agent. */
  datatype Participant = Participant(own: bool, schema: nat, role: Role, activity: Activity, pending: bool,
                                     revoked: bool, slashed: bool, validator: Option<nat>)

  /** A transaction on its way: a new entry for the agent, or the self-validation of an entry. */
  datatype Tx = Create(schema: nat, role: Role, validator: nat, selfCreate: bool) | Validate(entry: nat)

  /** What a boot is to ensure. */
  datatype Goal =
    | AsHolder(schema: nat)
    | AsSelfIssuer(schema: nat, root: nat)
    | AsServiceIssuer(schema: nat)
    | AsDelegate(schema: nat, validator: nat)

  /** Where a boot is; `service` is the Service schema that comes next. */
  datatype Pc =
    | Off
    | Listing
    | Resuming(todo: seq<nat>)
    | FlowKnown(entry: nat, todo: seq<nat>)
    | AwaitResume(tx: nat, entry: nat, todo: seq<nat>)
    | Gate
    | FindRoot(credential: nat, next: nat)
    | ReadOwn(goal: Goal, service: Option<nat>)
    | Prepare(goal: Goal, service: Option<nat>)
    | AwaitCreate(tx: nat, goal: Goal, service: Option<nat>)
    | Created(entry: nat, service: Option<nat>)
    | AwaitValidate(tx: nat, service: Option<nat>)

  /**
   * `participants` is the chain, an entry's id being its position. `listed` are the entries the running
   * boot set out to resume, `unresumed` those it gave up, and `validated` all that the agent validated.
   */
  datatype State = State(participants: seq<Participant>, mempool: map<nat, Tx>, nextTx: nat, pc: Pc,
                         listed: set<nat>, unresumed: set<nat>, validated: set<nat>)

  /**
   * `lateTransactions`: a boot may begin while a transaction of an interrupted one is still on its way.
   * `racingOperator`: the operator may provision an entry while a boot is running.
   */
  datatype Config = Config(lateTransactions: bool, racingOperator: bool)

  datatype Action =
    | Boot
    | Interrupt
    | List(readable: bool)
    | AllResumed
    | FlowLookup(ended: bool)
    | ResumeThrows
    | SubmitResume
    | ResumeByMessage(readable: bool)
    | Skip
    | EnterStandalone(credential: nat, service: nat)
    | EnterDelegated(schema: nat, validator: nat)
    | RootKnown(root: Option<nat>)
    | OwnKnown
    | Submit(validator: nat, selfCreate: bool)
    | SubmitValidation
    | Include(tx: nat)
    | Drop(tx: nat)
    | AddOther(entry: Participant)
    | Provision(entry: Participant)
    | Degrade(id: nat, entry: Participant)

  const START := State([], map[], 0, Off, {}, {}, {})

  // ---------------------------------------------------------------- entries

  /** `isUsableParticipant`. */
  predicate Usable(p: Participant) {
    !p.revoked && !p.slashed && (p.activity == Active || p.activity == Future || p.pending)
  }

  predicate InForce(p: Participant) {
    p.activity == Active && !p.revoked && !p.slashed
  }

  function GoalRole(g: Goal): Role {
    match g
    case AsHolder(_) => Holder
    case AsSelfIssuer(_, _) => Issuer
    case AsServiceIssuer(_) => Issuer
    case AsDelegate(_, _) => Holder
  }

  /** Entry `i` is a usable one of the agent for the schema and the role. */
  predicate Holds(s: State, i: nat, schema: nat, role: Role) {
    && i < |s.participants|
    && s.participants[i].own && Usable(s.participants[i])
    && s.participants[i].schema == schema && s.participants[i].role == role
  }

  predicate HoldsAny(s: State, schema: nat, role: Role) {
    exists i: nat :: i < |s.participants| && Holds(s, i, schema, role)
  }

  /** Transaction `t` would add an entry of the agent for the schema and the role. */
  predicate Creates(s: State, t: nat, schema: nat, role: Role) {
    t in s.mempool && s.mempool[t].Create? && s.mempool[t].schema == schema && s.mempool[t].role == role
  }

  /** The agent controls the validator of entry `i`. */
  predicate ValidatesItself(ps: seq<Participant>, i: nat) {
    && i < |ps| && ps[i].validator.Some? && ps[i].validator.value < |ps|
    && ps[ps[i].validator.value].own
  }

  predicate SelfValidated(s: State, i: nat) {
    ValidatesItself(s.participants, i)
  }

  /** An entry names a validator that exists. */
  predicate KnownValidator(s: State, p: Participant) {
    p.validator.Some? ==> p.validator.value < |s.participants|
  }

  predicate Resumable(p: Participant) {
    p.own && p.pending && !p.revoked && !p.slashed
  }

  /** The own entries that wait for their validator, in the order of the answer. */
  function PendingEntries(ps: seq<Participant>, n: nat): seq<nat>
    requires n <= |ps|
  {
    if n == 0 then []
    else if Resumable(ps[n - 1]) then PendingEntries(ps, n - 1) + [n - 1]
    else PendingEntries(ps, n - 1)
  }

  /** A started entry waits for its validator; a self-created one is in force. */
  function NewEntry(schema: nat, role: Role, validator: nat, selfCreate: bool): Participant {
    Participant(true, schema, role, if selfCreate then Active else Inactive, !selfCreate, false, false, Some(validator))
  }

  function MarkValidated(p: Participant): Participant {
    p.(activity := Active, pending := false)
  }

  /** Whether the validator fits the goal. */
  predicate FitsGoal(s: State, g: Goal, v: nat, selfCreate: bool) {
    && v < |s.participants|
    && match g
       case AsHolder(schema) =>
         !selfCreate && InForce(s.participants[v]) && !s.participants[v].own && s.participants[v].role == Issuer
       case AsSelfIssuer(_, root) => !selfCreate && v == root
       case AsServiceIssuer(_) =>
         InForce(s.participants[v]) && (s.participants[v].own ==> selfCreate && s.participants[v].role == Ecosystem)
       case AsDelegate(_, validator) => !selfCreate && v == validator
  }

  // ---------------------------------------------------------------- the steps

  /** After one goal: the Service schema, if it is still to come. */
  function Next(service: Option<nat>): Pc {
    match service
    case None => Off
    case Some(schema) => ReadOwn(AsServiceIssuer(schema), None)
  }

  function Send(s: State, tx: Tx, pc: Pc): State {
    s.(mempool := s.mempool[s.nextTx := tx], nextTx := s.nextTx + 1, pc := pc)
  }

  /** The chain carries out a transaction; the id of a new entry comes back to the caller. */
  function Apply(s: State, tx: Tx): State {
    match tx
    case Create(schema, role, validator, selfCreate) =>
      s.(participants := s.participants + [NewEntry(schema, role, validator, selfCreate)])
    case Validate(id) =>
      if id < |s.participants| && Resumable(s.participants[id])
      then s.(participants := s.participants[id := MarkValidated(s.participants[id])],
              validated := s.validated + {id})
      else s
  }

  /** Whether the chain accepts the transaction. */
  predicate Accepted(s: State, tx: Tx) {
    tx.Validate? ==> tx.entry < |s.participants| && Resumable(s.participants[tx.entry])
  }

  /** The caller that waits for the transaction goes on. */
  function Confirm(s: State, t: nat, entry: nat): Pc {
    match s.pc
    case AwaitResume(tx, _, todo) => if tx == t then Resuming(todo) else s.pc
    case AwaitCreate(tx, goal, service) =>
      if tx != t then s.pc else if goal.AsSelfIssuer? then Created(entry, service) else Next(service)
    case AwaitValidate(tx, service) => if tx == t then Next(service) else s.pc
    case _ => s.pc
  }

  /** The caller that waits for the transaction gets an error: only the resume loop catches it. */
  function Refuse(s: State, t: nat): State {
    match s.pc
    case AwaitResume(tx, entry, todo) =>
      if tx == t then s.(pc := Resuming(todo), unresumed := s.unresumed + {entry}) else s
    case AwaitCreate(tx, _, _) => if tx == t then s.(pc := Off) else s
    case AwaitValidate(tx, _) => if tx == t then s.(pc := Off) else s
    case _ => s
  }

  /** Degrading takes usability away or moves a pending entry on; it never gives usability back. */
  predicate Degrades(p: Participant, q: Participant) {
    && q == p.(activity := q.activity, pending := q.pending, revoked := q.revoked, slashed := q.slashed)
    && (Usable(q) ==> Usable(p)) && (q.pending ==> p.pending)
  }

  predicate Enabled(cfg: Config, s: State, a: Action) {
    match a
    case Boot => s.pc == Off && (s.mempool == map[] || cfg.lateTransactions)
    case Interrupt => true
    case List(_) => s.pc == Listing
    case AllResumed => s.pc.Resuming? && s.pc.todo == []
    case FlowLookup(_) => s.pc.Resuming? && s.pc.todo != []
    case ResumeThrows => s.pc.FlowKnown?
    case SubmitResume => s.pc.FlowKnown? && SelfValidated(s, s.pc.entry)
    case ResumeByMessage(readable) => s.pc.FlowKnown? && (readable ==> !SelfValidated(s, s.pc.entry))
    case Skip => s.pc == Gate || s.pc.FindRoot? || s.pc.ReadOwn? || s.pc.Prepare? || s.pc.Created?
    case EnterStandalone(credential, service) => s.pc == Gate && credential != service
    case EnterDelegated(_, validator) => s.pc == Gate && validator < |s.participants|
    case RootKnown(root) =>
      s.pc.FindRoot? && (root.Some? ==> Holds(s, root.value, s.pc.credential, Ecosystem) && InForce(s.participants[root.value]))
    case OwnKnown => s.pc.ReadOwn?
    case Submit(validator, selfCreate) => s.pc.Prepare? && FitsGoal(s, s.pc.goal, validator, selfCreate)
    case SubmitValidation => s.pc.Created?
    case Include(t) => t in s.mempool && Accepted(s, s.mempool[t])
    case Drop(t) => t in s.mempool
    case AddOther(p) => (!p.own || p.role == Ecosystem) && KnownValidator(s, p)
    case Provision(p) =>
      && p.own && Usable(p) && KnownValidator(s, p) && !HoldsAny(s, p.schema, p.role)
      && ((s.pc == Off && s.mempool == map[]) || cfg.racingOperator)
    case Degrade(id, p) => id < |s.participants| && Degrades(s.participants[id], p)
  }

  function Step(cfg: Config, s: State, a: Action): State
    requires Enabled(cfg, s, a)
  {
    match a
    case Boot => s.(pc := Listing, listed := {}, unresumed := {})
    case Interrupt => s.(pc := Off)
    case List(readable) =>
      var todo := if readable then PendingEntries(s.participants, |s.participants|) else [];
      s.(pc := Resuming(todo), listed := set i | i in todo)
    case AllResumed => s.(pc := Gate)
    case FlowLookup(ended) =>
      var entry, rest := s.pc.todo[0], s.pc.todo[1..];
      if ended then s.(pc := Resuming(rest), unresumed := s.unresumed + {entry}) else s.(pc := FlowKnown(entry, rest))
    case ResumeThrows => s.(pc := Resuming(s.pc.todo), unresumed := s.unresumed + {s.pc.entry})
    case SubmitResume => Send(s, Validate(s.pc.entry), AwaitResume(s.nextTx, s.pc.entry, s.pc.todo))
    case ResumeByMessage(readable) =>
      s.(pc := Resuming(s.pc.todo), unresumed := if readable then s.unresumed else s.unresumed + {s.pc.entry})
    case Skip => s.(pc := Off)
    case EnterStandalone(credential, service) => s.(pc := FindRoot(credential, service))
    case EnterDelegated(schema, validator) => s.(pc := ReadOwn(AsDelegate(schema, validator), None))
    case RootKnown(root) =>
      var goal := if root.Some? then AsSelfIssuer(s.pc.credential, root.value) else AsHolder(s.pc.credential);
      s.(pc := ReadOwn(goal, Some(s.pc.next)))
    case OwnKnown =>
      s.(pc := if HoldsAny(s, s.pc.goal.schema, GoalRole(s.pc.goal)) then Next(s.pc.service)
               else Prepare(s.pc.goal, s.pc.service))
    case Submit(validator, selfCreate) =>
      Send(s, Create(s.pc.goal.schema, GoalRole(s.pc.goal), validator, selfCreate),
           AwaitCreate(s.nextTx, s.pc.goal, s.pc.service))
    case SubmitValidation => Send(s, Validate(s.pc.entry), AwaitValidate(s.nextTx, s.pc.service))
    case Include(t) =>
      Apply(s, s.mempool[t]).(mempool := s.mempool - {t}, pc := Confirm(s, t, |s.participants|))
    case Drop(t) => Refuse(s, t).(mempool := s.mempool - {t})
    case AddOther(p) => s.(participants := s.participants + [p])
    case Provision(p) => s.(participants := s.participants + [p])
    case Degrade(id, p) => s.(participants := s.participants[id := p])
  }

  ghost function Run(cfg: Config, actions: seq<Action>): Option<State> {
    if actions == [] then Some(START)
    else match Run(cfg, actions[..|actions| - 1])
      case None => None
      case Some(s) =>
        var a := actions[|actions| - 1];
        if Enabled(cfg, s, a) then Some(Step(cfg, s, a)) else None
  }

  ghost predicate Reachable(cfg: Config, s: State) {
    exists actions :: Run(cfg, actions) == Some(s)
  }

  // ---------------------------------------------------------------- one entry per schema and role

  /** The roles in which the agent starts entries. */
  predicate Starts(role: Role) {
    role == Holder || role == Issuer
  }

  /** The agent never holds two usable entries for one schema and role. */
  ghost predicate OneEntry(s: State) {
    forall i, j, schema, role :: Starts(role) && Holds(s, i, schema, role) && Holds(s, j, schema, role) ==> i == j
  }

  /** An entry on its way has no usable sibling. */
  ghost predicate NoSibling(s: State) {
    forall t, i, schema, role :: Creates(s, t, schema, role) ==> !Holds(s, i, schema, role)
  }

  predicate AtRest(pc: Pc) {
    !pc.Off? && !pc.AwaitResume? && !pc.AwaitCreate? && !pc.AwaitValidate?
  }

  function AwaitedTx(pc: Pc): Option<nat> {
    match pc
    case AwaitResume(tx, _, _) => Some(tx)
    case AwaitCreate(tx, _, _) => Some(tx)
    case AwaitValidate(tx, _) => Some(tx)
    case _ => None
  }

  /** At most one transaction is on its way, and a running boot waits for it. */
  ghost predicate OneTx(s: State) {
    && (forall t :: t in s.mempool ==> t < s.nextTx)
    && (forall t, u :: t in s.mempool && u in s.mempool ==> t == u)
    && (AtRest(s.pc) ==> s.mempool == map[])
    && (AwaitedTx(s.pc).Some? ==> AwaitedTx(s.pc).value in s.mempool)
    && (forall t :: t in s.mempool && s.mempool[t].Create? ==> Starts(s.mempool[t].role))
  }

  /** A boot that has found no usable entry is right until it submits. */
  ghost predicate DecisionOk(s: State) {
    s.pc.Prepare? ==> !HoldsAny(s, s.pc.goal.schema, GoalRole(s.pc.goal))
  }

  ghost predicate Inv(s: State) {
    OneEntry(s) && NoSibling(s) && OneTx(s) && DecisionOk(s)
  }

  lemma StepKeepsOneTx(cfg: Config, s: State, a: Action)
    requires OneTx(s) && Enabled(cfg, s, a) && !cfg.lateTransactions
    ensures OneTx(Step(cfg, s, a))
  {
  }

  /** A usable entry after a step was one before, or it is the new one. */
  lemma HeldBefore(cfg: Config, s: State, a: Action, i: nat, schema: nat, role: Role)
    requires Enabled(cfg, s, a) && Holds(Step(cfg, s, a), i, schema, role)
    ensures || Holds(s, i, schema, role)
            || (i == |s.participants| && a.Provision? && schema == a.entry.schema && role == a.entry.role)
            || (i == |s.participants| && a.AddOther? && role == Ecosystem)
            || (i == |s.participants| && a.Include? && Creates(s, a.tx, schema, role))
  {
  }

  lemma StepKeepsEntries(cfg: Config, s: State, a: Action)
    requires Inv(s) && Enabled(cfg, s, a) && !cfg.lateTransactions && !cfg.racingOperator
    ensures OneEntry(Step(cfg, s, a))
  {
    var t := Step(cfg, s, a);
    forall i, j, schema, role | Starts(role) && Holds(t, i, schema, role) && Holds(t, j, schema, role) ensures i == j {
      HeldBefore(cfg, s, a, i, schema, role);
      HeldBefore(cfg, s, a, j, schema, role);
    }
  }

  lemma StepKeepsSiblings(cfg: Config, s: State, a: Action)
    requires Inv(s) && Enabled(cfg, s, a) && !cfg.lateTransactions && !cfg.racingOperator
    ensures NoSibling(Step(cfg, s, a))
  {
    var t := Step(cfg, s, a);
    StepKeepsOneTx(cfg, s, a);
    forall u, i, schema, role | Creates(t, u, schema, role) ensures !Holds(t, i, schema, role) {
      assert u in s.mempool ==> Creates(s, u, schema, role);
      if Holds(t, i, schema, role) {
        HeldBefore(cfg, s, a, i, schema, role);
      }
    }
  }

  lemma StepKeepsDecision(cfg: Config, s: State, a: Action)
    requires Inv(s) && Enabled(cfg, s, a) && !cfg.lateTransactions && !cfg.racingOperator
    ensures DecisionOk(Step(cfg, s, a))
  {
    var t := Step(cfg, s, a);
    if t.pc.Prepare? {
      var schema, role := t.pc.goal.schema, GoalRole(t.pc.goal);
      forall i: nat | Holds(t, i, schema, role) ensures Holds(s, i, schema, role) {
        HeldBefore(cfg, s, a, i, schema, role);
      }
    }
  }

  lemma {:induction false} RunKeepsInv(cfg: Config, actions: seq<Action>)
    requires !cfg.lateTransactions && !cfg.racingOperator && Run(cfg, actions).Some?
    ensures Inv(Run(cfg, actions).value)
  {
    if actions != [] {
      var s, a := Run(cfg, actions[..|actions| - 1]).value, actions[|actions| - 1];
      RunKeepsInv(cfg, actions[..|actions| - 1]);
      StepKeepsOneTx(cfg, s, a);
      StepKeepsEntries(cfg, s, a);
      StepKeepsSiblings(cfg, s, a);
      StepKeepsDecision(cfg, s, a);
    }
  }

  lemma ReachStep(cfg: Config, s: State, a: Action)
    requires Reachable(cfg, s) && Enabled(cfg, s, a)
    ensures Reachable(cfg, Step(cfg, s, a))
  {
    var actions :| Run(cfg, actions) == Some(s);
    assert (actions + [a])[..|actions + [a]| - 1] == actions;
    assert Run(cfg, actions + [a]) == Some(Step(cfg, s, a));
  }

  /** An ISSUER of another DID for schema 1. */
  const ISSUER_ENTRY := Participant(false, 1, Issuer, Active, false, false, false, None)

  /** An entry the operator provisions for the agent. */
  const OPERATOR_ENTRY := Participant(true, 1, Holder, Active, false, false, false, None)

  /** A boot that has resumed what was pending: nothing. */
  lemma BootReachesGate(cfg: Config, s: State) returns (t: State)
    requires Reachable(cfg, s) && s.participants == [ISSUER_ENTRY] && s.pc == Off
    requires s.mempool == map[] || cfg.lateTransactions
    ensures Reachable(cfg, t) && t.participants == s.participants && t.mempool == s.mempool && t.nextTx == s.nextTx
    ensures t.pc == Gate
  {
    ReachStep(cfg, s, Boot);
    var s1 := Step(cfg, s, Boot);
    assert PendingEntries(s1.participants, 1) == [];
    ReachStep(cfg, s1, List(true));
    var s2 := Step(cfg, s1, List(true));
    ReachStep(cfg, s2, AllResumed);
    t := Step(cfg, s2, AllResumed);
  }

  /** A boot, on a chain without own entries, that is about to start a HOLDER entry for schema 1. */
  lemma BootDecides(cfg: Config, s: State) returns (t: State)
    requires Reachable(cfg, s) && s.participants == [ISSUER_ENTRY] && s.pc == Off
    requires s.mempool == map[] || cfg.lateTransactions
    ensures Reachable(cfg, t) && t.participants == s.participants && t.mempool == s.mempool && t.nextTx == s.nextTx
    ensures t.pc == Prepare(AsHolder(1), Some(2))
  {
    var s3 := BootReachesGate(cfg, s);
    ReachStep(cfg, s3, EnterStandalone(1, 2));
    var s4 := Step(cfg, s3, EnterStandalone(1, 2));
    ReachStep(cfg, s4, RootKnown(None));
    var s5 := Step(cfg, s4, RootKnown(None));
    ReachStep(cfg, s5, OwnKnown);
    t := Step(cfg, s5, OwnKnown);
  }

  lemma EmptyChain(cfg: Config) returns (s: State)
    ensures Reachable(cfg, s) && s.participants == [ISSUER_ENTRY] && s.pc == Off && s.mempool == map[] && s.nextTx == 0
  {
    assert Run(cfg, []) == Some(START);
    ReachStep(cfg, START, AddOther(ISSUER_ENTRY));
    s := Step(cfg, START, AddOther(ISSUER_ENTRY));
  }

  /** A boot was interrupted with its transaction on its way, and the next one has submitted another. */
  lemma TwoOnTheirWay(cfg: Config) returns (s: State)
    requires cfg.lateTransactions
    ensures Reachable(cfg, s) && s.participants == [ISSUER_ENTRY]
    ensures s.mempool == map[0 := Create(1, Holder, 0, false), 1 := Create(1, Holder, 0, false)]
  {
    var s0 := EmptyChain(cfg);
    var s1 := BootDecides(cfg, s0);
    ReachStep(cfg, s1, Submit(0, false));
    var s2 := Step(cfg, s1, Submit(0, false));
    ReachStep(cfg, s2, Interrupt);
    var s3 := Step(cfg, s2, Interrupt);
    var s4 := BootDecides(cfg, s3);
    ReachStep(cfg, s4, Submit(0, false));
    s := Step(cfg, s4, Submit(0, false));
  }

  /** The transaction of an interrupted boot arrives after the next boot has read the chain. */
  lemma LateTransactionDoublesEntry(cfg: Config) returns (s: State)
    requires cfg.lateTransactions
    ensures Reachable(cfg, s) && !OneEntry(s)
  {
    var s1 := TwoOnTheirWay(cfg);
    ReachStep(cfg, s1, Include(0));
    var s2 := Step(cfg, s1, Include(0));
    ReachStep(cfg, s2, Include(1));
    s := Step(cfg, s2, Include(1));
    assert Holds(s, 1, 1, Holder) && Holds(s, 2, 1, Holder);
  }

  /** The operator provisions the entry after the boot has read the chain. */
  lemma RacingOperatorDoublesEntry(cfg: Config) returns (s: State)
    requires cfg.racingOperator
    ensures Reachable(cfg, s) && !OneEntry(s)
  {
    var s0 := EmptyChain(cfg);
    var s1 := BootDecides(cfg, s0);
    ReachStep(cfg, s1, Provision(OPERATOR_ENTRY));
    var s2 := Step(cfg, s1, Provision(OPERATOR_ENTRY));
    ReachStep(cfg, s2, Submit(0, false));
    var s3 := Step(cfg, s2, Submit(0, false));
    ReachStep(cfg, s3, Include(0));
    s := Step(cfg, s3, Include(0));
    assert Holds(s, 1, 1, Holder) && Holds(s, 2, 1, Holder);
  }

  /**
   * Main result. However boots are interrupted, the agent never holds two usable entries for one schema
   * and role: in every run exactly when boots wait for the transactions of earlier ones and the operator
   * provisions only between boots.
   */
  lemma OneEntryIff(cfg: Config)
    ensures (forall s :: Reachable(cfg, s) ==> OneEntry(s)) <==> !cfg.lateTransactions && !cfg.racingOperator
  {
    if cfg.lateTransactions {
      var s := LateTransactionDoublesEntry(cfg);
    } else if cfg.racingOperator {
      var s := RacingOperatorDoublesEntry(cfg);
    } else {
      forall s | Reachable(cfg, s) ensures OneEntry(s) {
        var actions :| Run(cfg, actions) == Some(s);
        RunKeepsInv(cfg, actions);
      }
    }
  }

  /**
   * A start or self-create transaction is submitted only while the agent holds no usable entry for that
   * schema and role and none is on its way; so a provisioned agent submits none.
   */
  lemma SubmitsOnlyWhatIsMissing(cfg: Config, s: State, validator: nat, selfCreate: bool)
    requires !cfg.lateTransactions && !cfg.racingOperator && Reachable(cfg, s)
    requires Enabled(cfg, s, Submit(validator, selfCreate))
    ensures !HoldsAny(s, s.pc.goal.schema, GoalRole(s.pc.goal)) && s.mempool == map[]
  {
    var actions :| Run(cfg, actions) == Some(s);
    RunKeepsInv(cfg, actions);
  }

  // ---------------------------------------------------------------- resuming

  /** The listed entries the running boot has not dealt with yet. */
  function Open(pc: Pc): seq<nat> {
    match pc
    case Resuming(todo) => todo
    case FlowKnown(entry, todo) => [entry] + todo
    case AwaitResume(_, entry, todo) => [entry] + todo
    case _ => []
  }

  /** The resume loop is over. */
  predicate Resumed(pc: Pc) {
    !pc.Off? && !pc.Listing? && !pc.Resuming? && !pc.FlowKnown? && !pc.AwaitResume?
  }

  /** A listed self-validated entry is open, given up, or validated by the agent. */
  predicate DealtWith(s: State, i: nat) {
    SelfValidated(s, i) ==> i in Open(s.pc) || i in s.unresumed || i in s.validated
  }

  ghost predicate ChainOk(s: State) {
    && (forall i :: 0 <= i < |s.participants| ==> KnownValidator(s, s.participants[i]))
    && (forall t :: t in s.mempool ==> t < s.nextTx && (s.mempool[t].Create? ==> s.mempool[t].validator < |s.participants|))
    && (forall i :: i in s.validated ==> i < |s.participants| && !s.participants[i].pending)
  }

  ghost predicate ResumeOk(s: State) {
    && (forall i :: i in s.listed ==> i < |s.participants|)
    && (s.pc.AwaitResume? ==> s.pc.tx < s.nextTx)
    && (s.pc.AwaitResume? && s.pc.tx in s.mempool ==> s.mempool[s.pc.tx] == Validate(s.pc.entry))
    && (!s.pc.Off? && !s.pc.Listing? ==> forall i :: i in s.listed ==> DealtWith(s, i))
  }

  lemma {:induction false} PendingAreListed(ps: seq<Participant>, n: nat)
    requires n <= |ps|
    ensures forall i :: i in PendingEntries(ps, n) <==> 0 <= i < n && Resumable(ps[i])
  {
    if n > 0 {
      PendingAreListed(ps, n - 1);
    }
  }

  lemma StepKeepsChain(cfg: Config, s: State, a: Action)
    requires ChainOk(s) && Enabled(cfg, s, a)
    ensures ChainOk(Step(cfg, s, a))
  {
  }

  /** Who validates an entry never changes. */
  lemma SameValidator(cfg: Config, s: State, a: Action, i: nat)
    requires ChainOk(s) && Enabled(cfg, s, a) && i < |s.participants|
    ensures SelfValidated(Step(cfg, s, a), i) <==> SelfValidated(s, i)
  {
    assert KnownValidator(s, s.participants[i]);
  }

  lemma StepKeepsDealtWith(cfg: Config, s: State, a: Action, i: nat)
    requires ChainOk(s) && ResumeOk(s) && Enabled(cfg, s, a) && !a.List? && i in s.listed
    requires !s.pc.Off? && !s.pc.Listing? && !Step(cfg, s, a).pc.Off?
    ensures DealtWith(Step(cfg, s, a), i)
  {
    assert DealtWith(s, i);
    SameValidator(cfg, s, a, i);
    if a.FlowLookup? {
      assert s.pc.todo == [s.pc.todo[0]] + s.pc.todo[1..];
    }
  }

  lemma StepKeepsResume(cfg: Config, s: State, a: Action)
    requires ChainOk(s) && ResumeOk(s) && Enabled(cfg, s, a)
    ensures ResumeOk(Step(cfg, s, a))
  {
    var t := Step(cfg, s, a);
    if a.List? {
      PendingAreListed(s.participants, |s.participants|);
    } else if !t.pc.Off? && !t.pc.Listing? {
      forall i | i in t.listed ensures DealtWith(t, i) {
        StepKeepsDealtWith(cfg, s, a, i);
      }
    }
  }

  lemma {:induction false} RunKeepsResume(cfg: Config, actions: seq<Action>)
    requires Run(cfg, actions).Some?
    ensures ChainOk(Run(cfg, actions).value) && ResumeOk(Run(cfg, actions).value)
  {
    if actions != [] {
      var s, a := Run(cfg, actions[..|actions| - 1]).value, actions[|actions| - 1];
      RunKeepsResume(cfg, actions[..|actions| - 1]);
      StepKeepsChain(cfg, s, a);
      StepKeepsResume(cfg, s, a);
    }
  }

  /** A boot sets out to resume exactly the own entries that are pending on chain and neither revoked nor slashed. */
  lemma BootListsPending(cfg: Config, s: State, i: nat)
    requires Enabled(cfg, s, List(true))
    ensures i in Step(cfg, s, List(true)).listed <==>
            && i < |s.participants| && s.participants[i].own && s.participants[i].pending
            && !s.participants[i].revoked && !s.participants[i].slashed
  {
    PendingAreListed(s.participants, |s.participants|);
  }

  /**
   * Main result. Once the resume loop of a boot is over, every listed entry whose validator the agent
   * controls has been validated by the agent and is pending no more, unless the boot gave it up because
   * its flow had ended or a call failed. So an entry interrupted between its start and its
   * self-validation is completed by the next boot, and OneEntryIff says that it gets no sibling.
   */
  lemma InterruptedEntryIsValidated(cfg: Config, s: State, i: nat)
    requires Reachable(cfg, s) && Resumed(s.pc) && i in s.listed && i !in s.unresumed && SelfValidated(s, i)
    ensures i in s.validated && !s.participants[i].pending
  {
    var actions :| Run(cfg, actions) == Some(s);
    RunKeepsResume(cfg, actions);
    assert DealtWith(s, i);
  }
}
