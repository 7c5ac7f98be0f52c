/**
 * Which connection owns a single-use invitation: the saves of connection records race for the
 * `invitationId` tag, one save at a time per out-of-band record.
 *
 * Models `ParentConnectionRepository` of packages/agent-sdk/src/connections/ParentConnectionModule.ts as a
 * state machine whose steps are the stretches of code between two awaits. Reads and writes of storage
 * may fail, a write may throw although storage took it, and out-of-band records and connections may
 * change or disappear at any time.
 */
module ParentConnection {
  import opened Options
  import KeyedQueue

  /** The tags and `outOfBandId` of a connection record. */
  datatype Connection = Connection(outOfBandId: Option<string>, parent: Option<string>, invitationId: Option<string>)

  /** `invitationRecord` is the tag that marks the out-of-band record of an invitation record. */
  datatype OutOfBand = OutOfBand(reusable: bool, invitationRecord: bool, parent: Option<string>, done: bool)

  datatype Stage = Chained | Finding | Querying(found: OutOfBand) | Storing | Returned | Threw

  /** One call of `save`: the record, its `outOfBandId`, and how far the call has come. */
  datatype Save = Save(record: string, oob: string, stage: Stage)

  /**
   * `records` are the connection records in memory, `connections` what storage holds. `called` holds the
   * records that were passed to `save`.
   */
  datatype State = State(oobs: map<string, OutOfBand>, records: map<string, Connection>,
                         connections: map<string, Connection>, queue: KeyedQueue.Queue, saves: seq<Save>,
                         called: set<string>)

  /**
   * What never changes about an out-of-band record, and how the surroundings behave. `resaves`: a
   * record may be passed to `save` again. `calm`: storage does not fail, nothing is deleted, an
   * invitation record is marked before it is used and done only after it is claimed.
   */
  datatype Config = Config(reusable: set<string>, parents: map<string, string>, resaves: bool, calm: bool)

  datatype Action =
    | NewRecord(id: string, outOfBandId: Option<string>)
    | CallSave(record: string)
    | PlainSave(record: string)
    | BeginSave(save: nat)
    | Found(save: nat)
    | Queried(save: nat)
    | Stored(save: nat, resolves: bool)
    | Failed(save: nat)
    | CleanUp(save: nat)
    | PutOutOfBand(id: string, invitationRecord: bool, done: bool)
    | DeleteOutOfBand(id: string)
    | DeleteConnection(id: string)

  const START := State(map[], map[], map[], KeyedQueue.EMPTY_QUEUE, [], {})

  // ---------------------------------------------------------------- the code between two awaits

  function ParentOf(cfg: Config, id: string): Option<string> {
    if id in cfg.parents then Some(cfg.parents[id]) else None
  }

  /** The tags that an accepted connection takes over from the out-of-band record. */
  function CopyTags(record: Connection, id: string, oob: OutOfBand): Connection {
    record.(parent := if oob.parent.Some? then oob.parent else record.parent,
            invitationId := if oob.invitationRecord then Some(id) else record.invitationId)
  }

  /** Another stored connection carries the tag of the invitation record. */
  predicate ClaimedByOther(connections: map<string, Connection>, id: string, record: string) {
    exists c :: c in connections && connections[c].invitationId == Some(id) && c != record
  }

  predicate SaveAt(s: State, i: nat) {
    i < |s.saves| && i < |s.queue.runs| && s.saves[i].record in s.records
  }

  function At(s: State, i: nat, stage: Stage): State
    requires i < |s.saves|
  {
    s.(saves := s.saves[i := s.saves[i].(stage := stage)])
  }

  /** The tags are copied, and the record goes on to storage. */
  function Accept(s: State, i: nat, oob: OutOfBand): State
    requires SaveAt(s, i)
  {
    var r := s.saves[i].record;
    At(s, i, Storing).(records := s.records[r := CopyTags(s.records[r], s.saves[i].oob, oob)])
  }

  /** After `findById`: the first two tests of `isConsumed`. */
  function AfterFind(s: State, i: nat): State
    requires SaveAt(s, i)
  {
    if s.saves[i].oob !in s.oobs then At(s, i, Storing)
    else
      var oob := s.oobs[s.saves[i].oob];
      if oob.reusable || !oob.invitationRecord then Accept(s, i, oob)
      else if oob.done then At(s, i, Storing)
      else At(s, i, Querying(oob))
  }

  /** After `findByQuery`: the last test of `isConsumed`. */
  function AfterQuery(s: State, i: nat): State
    requires SaveAt(s, i) && s.saves[i].stage.Querying?
  {
    if ClaimedByOther(s.connections, s.saves[i].oob, s.saves[i].record) then At(s, i, Storing)
    else Accept(s, i, s.saves[i].stage.found)
  }

  function Settle(s: State, i: nat, stage: Stage): State
    requires i < |s.saves| && i < |s.queue.runs|
  {
    At(s, i, stage).(queue := KeyedQueue.SettleRun(s.queue, i))
  }

  function StoreRecord(s: State, r: string): State
    requires r in s.records
  {
    s.(connections := s.connections[r := s.records[r]])
  }

  // ---------------------------------------------------------------- the state machine

  predicate Claimed(s: State, id: string) {
    exists c :: c in s.connections && s.connections[c].invitationId == Some(id)
  }

  predicate Enabled(cfg: Config, s: State, a: Action) {
    match a
    case NewRecord(id, _) => id !in s.records
    case CallSave(r) =>
      && r in s.records && s.records[r].outOfBandId.Some?
      && (r in s.called ==> cfg.resaves)
      && (cfg.calm ==> s.records[r].outOfBandId.value in s.oobs)
    case PlainSave(r) =>
      && r in s.records && s.records[r].outOfBandId.None? && r !in s.connections
    case BeginSave(i) => SaveAt(s, i) && KeyedQueue.CanBegin(s.queue, i)
    case Found(i) => SaveAt(s, i) && s.saves[i].stage == Finding
    case Queried(i) => SaveAt(s, i) && s.saves[i].stage.Querying?
    case Stored(i, resolves) =>
      && SaveAt(s, i) && s.saves[i].stage == Storing && s.saves[i].record !in s.connections
      && (cfg.calm ==> resolves)
    case Failed(i) =>
      && SaveAt(s, i) && !cfg.calm
      && (s.saves[i].stage == Finding || s.saves[i].stage.Querying? || s.saves[i].stage == Storing)
    case CleanUp(i) => KeyedQueue.Enabled(s.queue, KeyedQueue.Leave(i))
    case PutOutOfBand(id, invitationRecord, done) =>
      cfg.calm ==>
        && (id in s.oobs ==> invitationRecord == s.oobs[id].invitationRecord)
        && (done ==> Claimed(s, id))
    case DeleteOutOfBand(_) => !cfg.calm
    case DeleteConnection(_) => !cfg.calm
  }

  function Step(cfg: Config, s: State, a: Action): State
    requires Enabled(cfg, s, a)
  {
    match a
    case NewRecord(id, oob) => s.(records := s.records[id := Connection(oob, None, None)])
    case CallSave(r) =>
      s.(queue := KeyedQueue.EnterRun(s.queue, s.records[r].outOfBandId.value),
         saves := s.saves + [Save(r, s.records[r].outOfBandId.value, Chained)], called := s.called + {r})
    case PlainSave(r) => StoreRecord(s, r)
    case BeginSave(i) => At(s, i, Finding).(queue := KeyedQueue.BeginRun(s.queue, i))
    case Found(i) => AfterFind(s, i)
    case Queried(i) => AfterQuery(s, i)
    case Stored(i, resolves) => StoreRecord(Settle(s, i, if resolves then Returned else Threw), s.saves[i].record)
    case Failed(i) => Settle(s, i, Threw)
    case CleanUp(i) => s.(queue := KeyedQueue.LeaveRun(s.queue, i))
    case PutOutOfBand(id, invitationRecord, done) =>
      s.(oobs := s.oobs[id := OutOfBand(id in cfg.reusable, invitationRecord, ParentOf(cfg, id), done)])
    case DeleteOutOfBand(id) => s.(oobs := s.oobs - {id})
    case DeleteConnection(id) => s.(connections := s.connections - {id})
  }

  /** The state after the actions, if each is enabled when its turn comes. */
  ghost function Run(cfg: Config, actions: seq<Action>): Option<State> {
    if actions == [] then Some(START)
    else match Run(cfg, actions[..|actions| - 1])
      case None => None
      case Some(s) =>
        var a := actions[|actions| - 1];
        if Enabled(cfg, s, a) then Some(Step(cfg, s, a)) else None
  }

  ghost predicate Reachable(cfg: Config, s: State) {
    exists actions :: Run(cfg, actions) == Some(s)
  }

  // ---------------------------------------------------------------- the invariant

  predicate Ended(stage: Stage) {
    stage == Returned || stage == Threw
  }

  predicate StageMatches(stage: Stage, state: KeyedQueue.RunState) {
    match state
    case Waiting => stage == Chained
    case Running => stage == Finding || stage.Querying? || stage == Storing
    case Settled => Ended(stage)
  }

  /** Saves and queue runs are the same list, each on the invitation of its record. */
  ghost predicate Aligned(s: State) {
    && |s.saves| == |s.queue.runs|
    && forall i :: 0 <= i < |s.saves| ==>
         s.queue.runs[i].key == s.saves[i].oob && StageMatches(s.saves[i].stage, s.queue.runs[i].state)
  }

  predicate Unchecked(stage: Stage) {
    stage == Chained || stage == Finding || stage.Querying?
  }

  /** A record carries no tags until its invitation is checked. */
  predicate SaveOk(cfg: Config, s: State, save: Save) {
    && save.record in s.records && save.record in s.called
    && s.records[save.record].outOfBandId == Some(save.oob)
    && (Unchecked(save.stage) ==> s.records[save.record].invitationId == None && s.records[save.record].parent == None)
    && (save.stage.Querying? ==>
          && save.stage.found.invitationRecord
          && save.oob !in cfg.reusable
          && save.stage.found.parent == ParentOf(cfg, save.oob))
  }

  /** The tags of a record name its own invitation and the parent of that invitation. */
  predicate RecordOk(cfg: Config, s: State, r: string)
    requires r in s.records
  {
    var record := s.records[r];
    && (record.invitationId.Some? ==>
          && record.outOfBandId == record.invitationId
          && record.parent == ParentOf(cfg, record.invitationId.value))
    && (r !in s.called ==> record.invitationId == None && record.parent == None)
  }

  /** What is stored is what was saved. */
  ghost predicate StoredOk(s: State, c: string)
    requires c in s.connections
  {
    && c in s.records && s.connections[c] == s.records[c]
    && (s.records[c].outOfBandId.Some? ==> c in s.called)
    && (forall i :: 0 <= i < |s.saves| && s.saves[i].record == c ==> Ended(s.saves[i].stage))
  }

  predicate OobOk(cfg: Config, s: State, id: string)
    requires id in s.oobs
  {
    s.oobs[id].reusable == (id in cfg.reusable) && s.oobs[id].parent == ParentOf(cfg, id)
  }

  ghost predicate EntitiesOk(cfg: Config, s: State) {
    && (forall save :: save in s.saves ==> SaveOk(cfg, s, save))
    && (forall i, j :: 0 <= i < j < |s.saves| ==> s.saves[i].record != s.saves[j].record)
    && (forall r :: r in s.records ==> RecordOk(cfg, s, r))
    && (forall c :: c in s.connections ==> StoredOk(s, c))
    && (forall id :: id in s.oobs ==> OobOk(cfg, s, id))
  }

  predicate Owns(s: State, c: string, id: string) {
    c in s.connections && s.connections[c].invitationId == Some(id)
  }

  /** The record of save `i` has claimed the invitation and is on its way to storage. */
  predicate Claiming(s: State, i: nat, id: string) {
    SaveAt(s, i) && s.saves[i].stage == Storing && s.records[s.saves[i].record].invitationId == Some(id)
  }

  /** An invitation has one owner at most, and none while a claimant is on its way to storage. */
  ghost predicate OneOwner(s: State, id: string) {
    && (forall c, d :: Owns(s, c, id) && Owns(s, d, id) ==> c == d)
    && (forall i, c :: Claiming(s, i, id) ==> !Owns(s, c, id))
  }

  ghost predicate Inv(cfg: Config, s: State) {
    && KeyedQueue.Inv(s.queue) && Aligned(s) && EntitiesOk(cfg, s)
    && forall id :: id !in cfg.reusable ==> OneOwner(s, id)
  }

  /** Every step leaves the queue alone or is one of its steps. */
  function QueueStep(s: State, a: Action): Option<KeyedQueue.Action> {
    match a
    case CallSave(r) =>
      if r in s.records && s.records[r].outOfBandId.Some? then Some(KeyedQueue.Enter(s.records[r].outOfBandId.value))
      else None
    case BeginSave(i) => Some(KeyedQueue.Begin(i))
    case Stored(i, _) => Some(KeyedQueue.Settle(i))
    case Failed(i) => Some(KeyedQueue.Settle(i))
    case CleanUp(i) => Some(KeyedQueue.Leave(i))
    case _ => None
  }

  lemma StepIsQueueStep(cfg: Config, s: State, a: Action)
    requires Aligned(s) && Enabled(cfg, s, a)
    ensures QueueStep(s, a).None? ==> Step(cfg, s, a).queue == s.queue
    ensures QueueStep(s, a).Some? ==>
              && KeyedQueue.Enabled(s.queue, QueueStep(s, a).value)
              && Step(cfg, s, a).queue == KeyedQueue.Step(s.queue, QueueStep(s, a).value)
  {
  }

  lemma CallKeepsAligned(cfg: Config, s: State, r: string)
    requires Aligned(s) && Enabled(cfg, s, CallSave(r))
    ensures Aligned(Step(cfg, s, CallSave(r)))
  {
  }

  lemma CheckKeepsAligned(cfg: Config, s: State, a: Action)
    requires Aligned(s) && Enabled(cfg, s, a) && (a.Found? || a.Queried?)
    ensures Aligned(Step(cfg, s, a))
  {
  }

  lemma StepKeepsAligned(cfg: Config, s: State, a: Action)
    requires Aligned(s) && Enabled(cfg, s, a)
    ensures Aligned(Step(cfg, s, a))
  {
    if a.CallSave? {
      CallKeepsAligned(cfg, s, a.record);
    } else if a.Found? || a.Queried? {
      CheckKeepsAligned(cfg, s, a);
    }
  }

  lemma StepKeepsQueue(cfg: Config, s: State, a: Action)
    requires KeyedQueue.Inv(s.queue) && Aligned(s) && Enabled(cfg, s, a)
    ensures KeyedQueue.Inv(Step(cfg, s, a).queue)
  {
    StepIsQueueStep(cfg, s, a);
    if QueueStep(s, a).Some? {
      KeyedQueue.StepKeepsInv(s.queue, QueueStep(s, a).value);
    }
  }

  /** A step that moves save `i` to another stage and may fill the tags of its record. */
  lemma MoveKeepsEntities(cfg: Config, s: State, t: State, i: nat, stage: Stage, record: Connection)
    requires EntitiesOk(cfg, s) && SaveAt(s, i)
    requires t == s.(saves := s.saves[i := s.saves[i].(stage := stage)],
                     records := s.records[s.saves[i].record := record], queue := t.queue)
    requires !Ended(s.saves[i].stage)
    requires record.outOfBandId == s.records[s.saves[i].record].outOfBandId
    requires SaveOk(cfg, t, t.saves[i]) && RecordOk(cfg, t, s.saves[i].record)
    ensures EntitiesOk(cfg, t)
  {
    var r := s.saves[i].record;
    forall j: nat | j < |t.saves| ensures SaveOk(cfg, t, t.saves[j]) {
      assert SaveOk(cfg, s, s.saves[j]);
      assert j != i ==> s.saves[j].record != r;
    }
    forall q | q in t.records ensures RecordOk(cfg, t, q) {
      assert q != r ==> RecordOk(cfg, s, q);
    }
    forall c | c in t.connections ensures StoredOk(t, c) {
      assert StoredOk(s, c);
      assert c != r;
    }
    forall id | id in t.oobs ensures OobOk(cfg, t, id) {
      assert OobOk(cfg, s, id);
    }
  }

  lemma SaveStepKeepsEntities(cfg: Config, s: State, a: Action)
    requires Aligned(s) && EntitiesOk(cfg, s) && Enabled(cfg, s, a)
    requires a.BeginSave? || a.Found? || a.Queried? || a.Failed?
    ensures EntitiesOk(cfg, Step(cfg, s, a))
  {
    var t := Step(cfg, s, a);
    var i := a.save;
    var save := s.saves[i];
    assert save in s.saves;
    assert SaveOk(cfg, s, save) && RecordOk(cfg, s, save.record);
    if a.Found? && save.oob in s.oobs {
      assert OobOk(cfg, s, save.oob);
    }
    MoveKeepsEntities(cfg, s, t, i, t.saves[i].stage, t.records[save.record]);
  }

  lemma StoreKeepsEntities(cfg: Config, s: State, i: nat, resolves: bool)
    requires Aligned(s) && EntitiesOk(cfg, s) && Enabled(cfg, s, Stored(i, resolves))
    ensures EntitiesOk(cfg, Step(cfg, s, Stored(i, resolves)))
  {
    var stage := if resolves then Returned else Threw;
    var t := Settle(s, i, stage);
    var u := Step(cfg, s, Stored(i, resolves));
    var save := s.saves[i];
    assert save in s.saves;
    assert SaveOk(cfg, s, save) && RecordOk(cfg, s, save.record);
    MoveKeepsEntities(cfg, s, t, i, stage, s.records[save.record]);
    assert forall j :: 0 <= j < |t.saves| && t.saves[j].record == save.record ==> j == i;
    forall c | c in u.connections ensures StoredOk(u, c) {
      assert c != save.record ==> StoredOk(t, c);
    }
    forall q | q in u.records ensures RecordOk(cfg, u, q) {
      assert RecordOk(cfg, t, q);
    }
    forall x | x in u.saves ensures SaveOk(cfg, u, x) {
      assert SaveOk(cfg, t, x);
    }
    forall id | id in u.oobs ensures OobOk(cfg, u, id) {
      assert OobOk(cfg, t, id);
    }
  }

  lemma CallKeepsEntities(cfg: Config, s: State, r: string)
    requires EntitiesOk(cfg, s) && Enabled(cfg, s, CallSave(r)) && !cfg.resaves
    ensures EntitiesOk(cfg, Step(cfg, s, CallSave(r)))
  {
    var t := Step(cfg, s, CallSave(r));
    assert RecordOk(cfg, s, r);
    forall j: nat | j < |t.saves| ensures SaveOk(cfg, t, t.saves[j]) && (j < |s.saves| ==> t.saves[j].record != r) {
      assert j < |s.saves| ==> s.saves[j] in s.saves && SaveOk(cfg, s, s.saves[j]);
    }
    forall c | c in t.connections ensures StoredOk(t, c) {
      assert StoredOk(s, c);
    }
    forall q | q in t.records ensures RecordOk(cfg, t, q) {
      assert RecordOk(cfg, s, q);
    }
    forall id | id in t.oobs ensures OobOk(cfg, t, id) {
      assert OobOk(cfg, s, id);
    }
  }

  lemma OtherStepKeepsEntities(cfg: Config, s: State, a: Action)
    requires EntitiesOk(cfg, s) && Enabled(cfg, s, a)
    requires a.NewRecord? || a.PlainSave? || a.CleanUp? || a.PutOutOfBand? || a.DeleteOutOfBand? || a.DeleteConnection?
    ensures EntitiesOk(cfg, Step(cfg, s, a))
  {
    var t := Step(cfg, s, a);
    assert t.saves == s.saves;
    forall x | x in t.saves ensures SaveOk(cfg, t, x) {
      assert SaveOk(cfg, s, x);
    }
    forall q | q in t.records ensures RecordOk(cfg, t, q) {
      assert q in s.records ==> RecordOk(cfg, s, q);
    }
    forall c | c in t.connections ensures StoredOk(t, c) {
      assert c in s.connections ==> StoredOk(s, c);
      assert forall i :: 0 <= i < |s.saves| ==> SaveOk(cfg, s, s.saves[i]);
    }
    forall id | id in t.oobs ensures OobOk(cfg, t, id) {
      assert id in s.oobs ==> OobOk(cfg, s, id);
    }
  }

  lemma StepKeepsEntities(cfg: Config, s: State, a: Action)
    requires Aligned(s) && EntitiesOk(cfg, s) && Enabled(cfg, s, a) && !cfg.resaves
    ensures EntitiesOk(cfg, Step(cfg, s, a))
  {
    if a.BeginSave? || a.Found? || a.Queried? || a.Failed? {
      SaveStepKeepsEntities(cfg, s, a);
    } else if a.Stored? {
      StoreKeepsEntities(cfg, s, a.save, a.resolves);
    } else if a.CallSave? {
      CallKeepsEntities(cfg, s, a.record);
    } else {
      OtherStepKeepsEntities(cfg, s, a);
    }
  }

  /** While one save of an invitation is running, no other save of it is. */
  lemma OneSaveAtATime(s: State, i: nat, j: nat)
    requires KeyedQueue.Inv(s.queue) && Aligned(s)
    requires i < |s.saves| && j < |s.saves| && s.saves[i].oob == s.saves[j].oob
    requires s.queue.runs[i].state == KeyedQueue.Running && s.queue.runs[j].state == KeyedQueue.Running
    ensures i == j
  {
    if i < j {
      KeyedQueue.OneRunPerKey(s.queue, i, j);
    } else if j < i {
      KeyedQueue.OneRunPerKey(s.queue, j, i);
    }
  }

  /** A check that ends in a claim of a single-use invitation saw no owner. */
  lemma CheckSeesNoOwner(cfg: Config, s: State, a: Action, id: string, c: string)
    requires EntitiesOk(cfg, s) && Enabled(cfg, s, a) && (a.Found? || a.Queried?)
    requires id !in cfg.reusable && Claiming(Step(cfg, s, a), a.save, id)
    ensures !Owns(s, c, id)
  {
    var save := s.saves[a.save];
    assert save in s.saves;
    assert SaveOk(cfg, s, save);
    assert save.oob in s.oobs ==> OobOk(cfg, s, save.oob);
    assert Owns(s, c, id) ==> StoredOk(s, c);
  }

  lemma CheckKeepsOwners(cfg: Config, s: State, a: Action, id: string)
    requires EntitiesOk(cfg, s) && Enabled(cfg, s, a) && (a.Found? || a.Queried?)
    requires id !in cfg.reusable && OneOwner(s, id)
    ensures OneOwner(Step(cfg, s, a), id)
  {
    var t := Step(cfg, s, a);
    forall j: nat, c | Claiming(t, j, id) ensures !Owns(t, c, id) {
      if j == a.save {
        CheckSeesNoOwner(cfg, s, a, id, c);
      } else {
        assert s.saves[j].record != s.saves[a.save].record;
        assert Claiming(s, j, id);
      }
      assert Owns(t, c, id) == Owns(s, c, id);
    }
    forall c, d | Owns(t, c, id) && Owns(t, d, id) ensures c == d {
      assert Owns(s, c, id) && Owns(s, d, id);
    }
  }

  lemma StoreKeepsOwners(cfg: Config, s: State, i: nat, resolves: bool, id: string)
    requires Inv(cfg, s) && Enabled(cfg, s, Stored(i, resolves)) && OneOwner(s, id)
    ensures OneOwner(Step(cfg, s, Stored(i, resolves)), id)
  {
    var t := Step(cfg, s, Stored(i, resolves));
    var r := s.saves[i].record;
    assert forall c :: c != r ==> (Owns(t, c, id) <==> Owns(s, c, id));
    assert Owns(t, r, id) <==> Claiming(s, i, id);
    forall j: nat, c | Claiming(t, j, id) ensures !Owns(t, c, id) {
      assert Claiming(s, j, id) && j != i;
      if Claiming(s, i, id) {
        SameOob(cfg, s, i, j, id);
        OneSaveAtATime(s, i, j);
      }
    }
  }

  lemma SameOob(cfg: Config, s: State, i: nat, j: nat, id: string)
    requires EntitiesOk(cfg, s) && Claiming(s, i, id) && Claiming(s, j, id)
    ensures s.saves[i].oob == s.saves[j].oob
  {
    assert s.saves[i] in s.saves && s.saves[j] in s.saves;
    assert SaveOk(cfg, s, s.saves[i]) && SaveOk(cfg, s, s.saves[j]);
    assert RecordOk(cfg, s, s.saves[i].record) && RecordOk(cfg, s, s.saves[j].record);
  }

  lemma OtherStepKeepsOwners(cfg: Config, s: State, a: Action, id: string)
    requires EntitiesOk(cfg, s) && Aligned(s) && Enabled(cfg, s, a) && !a.Found? && !a.Queried? && !a.Stored?
    requires OneOwner(s, id)
    ensures OneOwner(Step(cfg, s, a), id)
  {
    var t := Step(cfg, s, a);
    forall c | Owns(t, c, id) ensures Owns(s, c, id) {
      assert a.PlainSave? ==> RecordOk(cfg, s, a.record);
    }
    forall j: nat | Claiming(t, j, id) ensures Claiming(s, j, id) {
      assert j < |s.saves| ==> s.saves[j] in s.saves && SaveOk(cfg, s, s.saves[j]);
    }
  }

  lemma StepKeepsInv(cfg: Config, s: State, a: Action)
    requires Inv(cfg, s) && Enabled(cfg, s, a) && !cfg.resaves
    ensures Inv(cfg, Step(cfg, s, a))
  {
    StepKeepsAligned(cfg, s, a);
    StepKeepsQueue(cfg, s, a);
    StepKeepsEntities(cfg, s, a);
    forall id | id !in cfg.reusable ensures OneOwner(Step(cfg, s, a), id) {
      if a.Found? || a.Queried? {
        CheckKeepsOwners(cfg, s, a, id);
      } else if a.Stored? {
        StoreKeepsOwners(cfg, s, a.save, a.resolves, id);
      } else {
        OtherStepKeepsOwners(cfg, s, a, id);
      }
    }
  }

  lemma {:induction false} RunKeepsInv(cfg: Config, actions: seq<Action>)
    requires !cfg.resaves && Run(cfg, actions).Some?
    ensures Inv(cfg, Run(cfg, actions).value)
  {
    if actions != [] {
      RunKeepsInv(cfg, actions[..|actions| - 1]);
      StepKeepsInv(cfg, Run(cfg, actions[..|actions| - 1]).value, actions[|actions| - 1]);
    }
  }

  // ---------------------------------------------------------------- single ownership

  /** No single-use invitation is owned by two stored connections. */
  ghost predicate SingleOwners(cfg: Config, s: State) {
    forall id, c, d :: id !in cfg.reusable && Owns(s, c, id) && Owns(s, d, id) ==> c == d
  }

  lemma ReachStep(cfg: Config, s: State, a: Action)
    requires Reachable(cfg, s) && Enabled(cfg, s, a)
    ensures Reachable(cfg, Step(cfg, s, a))
  {
    var actions :| Run(cfg, actions) == Some(s);
    assert (actions + [a])[..|actions + [a]| - 1] == actions;
    assert Run(cfg, actions + [a]) == Some(Step(cfg, s, a));
  }

  /** The check of a record, when the single-use invitation is still open. */
  lemma CheckRecord(cfg: Config, s: State, i: nat) returns (t: State)
    requires Reachable(cfg, s) && SaveAt(s, i) && KeyedQueue.CanBegin(s.queue, i)
    requires s.saves[i].oob in s.oobs
    requires var oob := s.oobs[s.saves[i].oob]; !oob.reusable && oob.invitationRecord && !oob.done
    ensures Reachable(cfg, t)
    ensures var begun := At(s, i, Storing).(queue := KeyedQueue.BeginRun(s.queue, i));
            t == if ClaimedByOther(s.connections, s.saves[i].oob, s.saves[i].record) then begun
                 else Accept(begun, i, s.oobs[s.saves[i].oob])
  {
    ReachStep(cfg, s, BeginSave(i));
    var begun := Step(cfg, s, BeginSave(i));
    ReachStep(cfg, begun, Found(i));
    var found := Step(cfg, begun, Found(i));
    assert found == At(begun, i, Querying(s.oobs[s.saves[i].oob]));
    ReachStep(cfg, found, Queried(i));
    t := Step(cfg, found, Queried(i));
    assert found.connections == s.connections;
  }

  lemma {:induction false} UnusedId(ids: set<string>) returns (id: string)
    ensures id !in ids
  {
    var rest, longest := ids, 0;
    while rest != {}
      invariant 0 <= longest && rest <= ids && forall x :: x in ids - rest ==> |x| <= longest
      decreases |rest|
    {
      var x :| x in rest;
      rest := rest - {x};
      longest := if |x| > longest then |x| else longest;
    }
    id := seq(longest + 1, _ => 'x');
    assert ids - {} == ids;
  }

  /** Two records of one open single-use invitation; the save of the first has failed. */
  lemma FailedSave(cfg: Config, o: string) returns (s: State)
    requires cfg.resaves && !cfg.calm && o !in cfg.reusable
    ensures Reachable(cfg, s)
    ensures s.oobs == map[o := OutOfBand(false, true, ParentOf(cfg, o), false)] && s.connections == map[]
    ensures "a" in s.records && "b" in s.records && s.records["a"].invitationId == Some(o)
    ensures s.records["a"].outOfBandId == Some(o) && s.records["b"] == Connection(Some(o), None, None)
    ensures s.called == {"a"} && s.saves == [Save("a", o, Threw)]
    ensures s.queue == KeyedQueue.Queue([KeyedQueue.Run(o, None, KeyedQueue.Settled, false)], map[o := 0])
  {
    assert Run(cfg, []) == Some(START);
    ReachStep(cfg, START, PutOutOfBand(o, true, false));
    var s1 := Step(cfg, START, PutOutOfBand(o, true, false));
    ReachStep(cfg, s1, NewRecord("a", Some(o)));
    var s2 := Step(cfg, s1, NewRecord("a", Some(o)));
    ReachStep(cfg, s2, NewRecord("b", Some(o)));
    var s3 := Step(cfg, s2, NewRecord("b", Some(o)));
    ReachStep(cfg, s3, CallSave("a"));
    var s4 := Step(cfg, s3, CallSave("a"));
    var s5 := CheckRecord(cfg, s4, 0);
    ReachStep(cfg, s5, Failed(0));
    s := Step(cfg, s5, Failed(0));
  }

  /**
   * A record keeps the tag that a failed save gave it. Saved again after another connection claimed the
   * invitation, it is refused, and stored with the tag all the same.
   */
  lemma ResavedRecordClaimsTwice(cfg: Config) returns (s: State)
    requires cfg.resaves && !cfg.calm
    ensures Reachable(cfg, s) && !SingleOwners(cfg, s)
  {
    var o := UnusedId(cfg.reusable);
    var s0 := FailedSave(cfg, o);
    ReachStep(cfg, s0, CallSave("b"));
    var s1 := Step(cfg, s0, CallSave("b"));
    var s2 := CheckRecord(cfg, s1, 1);
    ReachStep(cfg, s2, Stored(1, true));
    var s3 := Step(cfg, s2, Stored(1, true));
    assert Owns(s3, "b", o);
    ReachStep(cfg, s3, CallSave("a"));
    var s4 := Step(cfg, s3, CallSave("a"));
    var s5 := CheckRecord(cfg, s4, 2);
    assert s5.records["a"].invitationId == Some(o);
    ReachStep(cfg, s5, Stored(2, true));
    s := Step(cfg, s5, Stored(2, true));
    assert Owns(s, "a", o) && Owns(s, "b", o);
  }

  /**
   * Main result. Whatever fails, and however saves of the same and of other invitations interleave, a
   * single-use invitation has one owner at most: in every run exactly when no record is saved twice.
   */
  lemma SingleOwnerIff(cfg: Config)
    requires !cfg.calm
    ensures (forall s :: Reachable(cfg, s) ==> SingleOwners(cfg, s)) <==> !cfg.resaves
  {
    if cfg.resaves {
      var s := ResavedRecordClaimsTwice(cfg);
    } else {
      forall s | Reachable(cfg, s) ensures SingleOwners(cfg, s) {
        var actions :| Run(cfg, actions) == Some(s);
        RunKeepsInv(cfg, actions);
        assert forall id :: id !in cfg.reusable ==> OneOwner(s, id);
      }
    }
  }

  lemma {:induction false} RunKeepsQueue(cfg: Config, actions: seq<Action>)
    requires Run(cfg, actions).Some?
    ensures KeyedQueue.Inv(Run(cfg, actions).value.queue) && Aligned(Run(cfg, actions).value)
  {
    if actions != [] {
      RunKeepsQueue(cfg, actions[..|actions| - 1]);
      StepKeepsAligned(cfg, Run(cfg, actions[..|actions| - 1]).value, actions[|actions| - 1]);
      StepKeepsQueue(cfg, Run(cfg, actions[..|actions| - 1]).value, actions[|actions| - 1]);
    }
  }

  /** The saves of one invitation take turns: none begins its check before all earlier ones settled. */
  lemma SavesTakeTurns(cfg: Config, s: State, i: nat, j: nat)
    requires Reachable(cfg, s) && i < j < |s.saves| && s.saves[i].oob == s.saves[j].oob
    requires s.saves[j].stage != Chained
    ensures Ended(s.saves[i].stage)
  {
    var actions :| Run(cfg, actions) == Some(s);
    RunKeepsQueue(cfg, actions);
    KeyedQueue.OneRunPerKey(s.queue, i, j);
  }

  /**
   * In every run the map has an entry for an invitation exactly while the caller of its latest save has
   * not cleaned up, so an idle invitation has none; and it loses none that a save still needs.
   */
  lemma IdleInvitationHasNoEntry(cfg: Config, s: State, id: string)
    requires Reachable(cfg, s)
    ensures id in s.queue.entries <==> exists i :: KeyedQueue.AwaitedLatest(s.queue, id, i)
    ensures id !in s.queue.entries ==>
              forall i :: 0 <= i < |s.saves| && s.saves[i].oob == id ==> Ended(s.saves[i].stage)
  {
    var actions :| Run(cfg, actions) == Some(s);
    RunKeepsQueue(cfg, actions);
    KeyedQueue.EntryIffBusy(s.queue, id);
    forall i | 0 <= i < |s.saves| && s.saves[i].oob == id && id !in s.queue.entries ensures Ended(s.saves[i].stage) {
      assert s.queue.runs[i].key == id;
    }
  }

  // ---------------------------------------------------------------- the first save claims

  /** The check of a save has ended. */
  predicate Checked(stage: Stage) {
    stage == Storing || stage == Returned
  }

  /** A checked save of a single-use invitation record found it claimed, or claims it. */
  ghost predicate CheckedOk(cfg: Config, s: State, i: nat)
    requires i < |s.saves|
  {
    var save := s.saves[i];
    && save.oob in s.oobs && save.stage != Threw
    && (save.stage.Querying? ==> s.oobs[save.oob].invitationRecord)
    && (Checked(save.stage) && s.oobs[save.oob].invitationRecord && save.oob !in cfg.reusable ==>
          Claimed(s, save.oob) || Claiming(s, i, save.oob))
  }

  ghost predicate CalmOk(cfg: Config, s: State) {
    && (forall id :: id in s.oobs && s.oobs[id].done ==> Claimed(s, id))
    && (forall i :: 0 <= i < |s.saves| ==> CheckedOk(cfg, s, i))
  }

  lemma StepKeepsClaimed(cfg: Config, s: State, a: Action, id: string)
    requires cfg.calm && EntitiesOk(cfg, s) && Enabled(cfg, s, a) && Claimed(s, id)
    ensures Claimed(Step(cfg, s, a), id)
  {
    var c :| c in s.connections && s.connections[c].invitationId == Some(id);
    var t := Step(cfg, s, a);
    assert c in t.connections && t.connections[c].invitationId == Some(id);
  }

  /** The step of save `i` itself. */
  lemma OwnStepKeepsChecked(cfg: Config, s: State, a: Action)
    requires cfg.calm && Aligned(s) && EntitiesOk(cfg, s) && CalmOk(cfg, s) && Enabled(cfg, s, a)
    requires a.BeginSave? || a.Found? || a.Queried? || a.Stored?
    ensures CheckedOk(cfg, Step(cfg, s, a), a.save)
  {
    var t := Step(cfg, s, a);
    var save := s.saves[a.save];
    assert save in s.saves;
    assert CheckedOk(cfg, s, a.save) && SaveOk(cfg, s, save) && OobOk(cfg, s, save.oob);
    if Claimed(s, save.oob) {
      StepKeepsClaimed(cfg, s, a, save.oob);
    } else if a.Queried? {
      assert !ClaimedByOther(s.connections, save.oob, save.record);
    } else if a.Stored? && Claiming(s, a.save, save.oob) {
      assert t.connections[save.record].invitationId == Some(save.oob);
    }
  }

  lemma OtherStepKeepsChecked(cfg: Config, s: State, a: Action, i: nat)
    requires cfg.calm && EntitiesOk(cfg, s) && Enabled(cfg, s, a)
    requires i < |s.saves| && CheckedOk(cfg, s, i) && Step(cfg, s, a).saves[i] == s.saves[i]
    requires a.BeginSave? || a.Found? || a.Queried? || a.Stored? ==> a.save != i
    ensures CheckedOk(cfg, Step(cfg, s, a), i)
  {
    var save := s.saves[i];
    if Claimed(s, save.oob) {
      StepKeepsClaimed(cfg, s, a, save.oob);
    } else if Claiming(s, i, save.oob) {
      assert Claiming(Step(cfg, s, a), i, save.oob);
    }
  }

  lemma StepKeepsCalm(cfg: Config, s: State, a: Action)
    requires cfg.calm && Aligned(s) && EntitiesOk(cfg, s) && CalmOk(cfg, s) && Enabled(cfg, s, a)
    ensures CalmOk(cfg, Step(cfg, s, a))
  {
    var t := Step(cfg, s, a);
    forall i: nat | i < |t.saves| ensures CheckedOk(cfg, t, i) {
      if i < |s.saves| && t.saves[i] == s.saves[i] && !(a.Stored? && a.save == i) {
        OtherStepKeepsChecked(cfg, s, a, i);
      } else if i < |s.saves| {
        OwnStepKeepsChecked(cfg, s, a);
      }
    }
    forall id | id in t.oobs && t.oobs[id].done ensures Claimed(t, id) {
      StepKeepsClaimed(cfg, s, a, id);
    }
  }

  lemma {:induction false} RunKeepsCalm(cfg: Config, actions: seq<Action>)
    requires cfg.calm && !cfg.resaves && Run(cfg, actions).Some?
    ensures CalmOk(cfg, Run(cfg, actions).value)
  {
    if actions != [] {
      RunKeepsCalm(cfg, actions[..|actions| - 1]);
      RunKeepsInv(cfg, actions[..|actions| - 1]);
      StepKeepsCalm(cfg, Run(cfg, actions[..|actions| - 1]).value, actions[|actions| - 1]);
    }
  }

  /**
   * As long as nothing fails and nothing is deleted, a stored save of a single-use invitation record
   * means exactly one owner: it carries both tags of the invitation, and every other connection of the
   * invitation is stored without the `invitationId` tag.
   */
  lemma FirstSaveClaims(cfg: Config, s: State, i: nat) returns (owner: string)
    requires cfg.calm && !cfg.resaves && Reachable(cfg, s)
    requires i < |s.saves| && s.saves[i].stage == Returned && s.saves[i].oob !in cfg.reusable
    requires s.saves[i].oob in s.oobs && s.oobs[s.saves[i].oob].invitationRecord
    ensures Owns(s, owner, s.saves[i].oob)
    ensures s.connections[owner].parent == ParentOf(cfg, s.saves[i].oob)
    ensures forall c :: c in s.connections && c != owner && s.connections[c].outOfBandId == Some(s.saves[i].oob) ==>
              s.connections[c].invitationId == None
  {
    var actions :| Run(cfg, actions) == Some(s);
    RunKeepsInv(cfg, actions);
    RunKeepsCalm(cfg, actions);
    var id := s.saves[i].oob;
    assert CheckedOk(cfg, s, i);
    owner :| owner in s.connections && s.connections[owner].invitationId == Some(id);
    assert StoredOk(s, owner) && RecordOk(cfg, s, owner);
    assert OneOwner(s, id) && Owns(s, owner, id);
    forall c | c in s.connections && c != owner && s.connections[c].outOfBandId == Some(id)
      ensures s.connections[c].invitationId == None
    {
      assert StoredOk(s, c) && RecordOk(cfg, s, c);
      assert !Owns(s, c, id);
    }
  }

  // ---------------------------------------------------------------- the tags of the other invitations

  /** No single-use invitation: the record is reusable, or it is no invitation record at all. */
  predicate OpenToAll(oob: OutOfBand) {
    oob.reusable || !oob.invitationRecord
  }

  /** The tags that a connection of this out-of-band record gets. */
  function Tagged(id: string, oob: OutOfBand): Connection {
    Connection(Some(id), oob.parent, if oob.invitationRecord then Some(id) else None)
  }

  /** A record carries no tag, or the one of its own out-of-band record. */
  ghost predicate OwnTags(s: State, r: string)
    requires r in s.records
  {
    var record := s.records[r];
    if record.outOfBandId.Some? && record.outOfBandId.value in s.oobs then
      var full := Tagged(record.outOfBandId.value, s.oobs[record.outOfBandId.value]);
      && (record.parent == None || record.parent == full.parent)
      && (record.invitationId == None || record.invitationId == full.invitationId)
    else record.parent == None && record.invitationId == None
  }

  /** How far a save of an out-of-band record that is open to all has tagged and stored its connection. */
  ghost predicate TaggingOk(s: State, save: Save) {
    && save.record in s.records && s.records[save.record].outOfBandId == Some(save.oob) && save.oob in s.oobs
    && (save.stage.Querying? ==>
          save.stage.found.invitationRecord && !OpenToAll(s.oobs[save.oob]) &&
          save.stage.found.parent == s.oobs[save.oob].parent)
    && (Checked(save.stage) && OpenToAll(s.oobs[save.oob]) ==>
          s.records[save.record] == Tagged(save.oob, s.oobs[save.oob]))
    && (save.stage == Returned && OpenToAll(s.oobs[save.oob]) ==>
          save.record in s.connections && s.connections[save.record] == Tagged(save.oob, s.oobs[save.oob]))
  }

  ghost predicate TagsOk(cfg: Config, s: State) {
    && (forall i :: 0 <= i < |s.saves| ==> TaggingOk(s, s.saves[i]))
    && (forall r :: r in s.records ==> OwnTags(s, r))
    && (forall id :: id in s.oobs ==> OobOk(cfg, s, id))
  }

  /** Out-of-band records keep what the tags are taken from, and saves move only by their own steps. */
  lemma CalmStepEffect(cfg: Config, s: State, a: Action, id: string)
    requires cfg.calm && Enabled(cfg, s, a) && id in s.oobs && OobOk(cfg, s, id)
    ensures id in Step(cfg, s, a).oobs
    ensures Tagged(id, Step(cfg, s, a).oobs[id]) == Tagged(id, s.oobs[id])
    ensures OpenToAll(Step(cfg, s, a).oobs[id]) == OpenToAll(s.oobs[id])
  {
  }

  /** Full tags put onto a record that has none of its own or those. */
  lemma CopyGivesTagged(s: State, r: string, id: string, oob: OutOfBand)
    requires r in s.records && OwnTags(s, r) && s.records[r].outOfBandId == Some(id) && id in s.oobs
    requires oob.parent == s.oobs[id].parent && oob.invitationRecord == s.oobs[id].invitationRecord
    ensures CopyTags(s.records[r], id, oob) == Tagged(id, s.oobs[id])
  {
  }

  /** What a step does to a record in memory: nothing, or it gets all its tags. */
  lemma RecordAfterStep(cfg: Config, s: State, a: Action, r: string)
    requires cfg.calm && Aligned(s) && TagsOk(cfg, s) && Enabled(cfg, s, a) && r in s.records
    ensures var t := Step(cfg, s, a);
            && r in t.records
            && (t.records[r] == s.records[r]
                || (&& s.records[r].outOfBandId.Some? && s.records[r].outOfBandId.value in s.oobs
                    && t.records[r] == Tagged(s.records[r].outOfBandId.value, s.oobs[s.records[r].outOfBandId.value])))
  {
    if a.Found? || a.Queried? {
      var save := s.saves[a.save];
      assert TaggingOk(s, save) && OwnTags(s, save.record);
      var oob := if a.Found? then s.oobs[save.oob] else save.stage.found;
      if oob.parent == s.oobs[save.oob].parent && oob.invitationRecord == s.oobs[save.oob].invitationRecord {
        CopyGivesTagged(s, save.record, save.oob, oob);
      }
    }
  }

  lemma StepKeepsOwnTags(cfg: Config, s: State, a: Action, r: string)
    requires cfg.calm && Aligned(s) && TagsOk(cfg, s) && Enabled(cfg, s, a) && r in Step(cfg, s, a).records
    ensures OwnTags(Step(cfg, s, a), r)
  {
    if r in s.records {
      assert OwnTags(s, r);
      RecordAfterStep(cfg, s, a, r);
      var id := s.records[r].outOfBandId;
      if id.Some? && id.value in s.oobs {
        assert OobOk(cfg, s, id.value);
        CalmStepEffect(cfg, s, a, id.value);
      }
    }
  }

  /** A save that the step does not move. */
  lemma OtherStepKeepsTagging(cfg: Config, s: State, a: Action, i: nat)
    requires cfg.calm && Aligned(s) && TagsOk(cfg, s) && Enabled(cfg, s, a)
    requires i < |s.saves| && Step(cfg, s, a).saves[i] == s.saves[i]
    ensures TaggingOk(Step(cfg, s, a), s.saves[i])
  {
    var save := s.saves[i];
    assert TaggingOk(s, save) && OobOk(cfg, s, save.oob);
    RecordAfterStep(cfg, s, a, save.record);
    CalmStepEffect(cfg, s, a, save.oob);
    if a.Stored? {
      assert TaggingOk(s, s.saves[a.save]);
    }
  }

  /** The save that the step moves. */
  lemma OwnStepKeepsTagging(cfg: Config, s: State, a: Action)
    requires cfg.calm && Aligned(s) && TagsOk(cfg, s) && Enabled(cfg, s, a)
    requires a.BeginSave? || a.Found? || a.Queried? || a.Stored?
    ensures TaggingOk(Step(cfg, s, a), Step(cfg, s, a).saves[a.save])
  {
    var save := s.saves[a.save];
    assert TaggingOk(s, save) && OobOk(cfg, s, save.oob) && OwnTags(s, save.record);
    if a.Found? {
      CopyGivesTagged(s, save.record, save.oob, s.oobs[save.oob]);
    }
  }

  lemma StepKeepsTags(cfg: Config, s: State, a: Action)
    requires cfg.calm && Aligned(s) && TagsOk(cfg, s) && Enabled(cfg, s, a)
    ensures TagsOk(cfg, Step(cfg, s, a))
  {
    var t := Step(cfg, s, a);
    forall r | r in t.records ensures OwnTags(t, r) {
      StepKeepsOwnTags(cfg, s, a, r);
    }
    forall i: nat | i < |t.saves| ensures TaggingOk(t, t.saves[i]) {
      if i < |s.saves| && t.saves[i] == s.saves[i] {
        OtherStepKeepsTagging(cfg, s, a, i);
      } else if i < |s.saves| {
        OwnStepKeepsTagging(cfg, s, a);
      }
    }
    forall id | id in t.oobs ensures OobOk(cfg, t, id) {
      assert id in s.oobs ==> OobOk(cfg, s, id);
    }
  }

  lemma {:induction false} RunKeepsTags(cfg: Config, actions: seq<Action>)
    requires cfg.calm && Run(cfg, actions).Some?
    ensures TagsOk(cfg, Run(cfg, actions).value)
  {
    if actions != [] {
      RunKeepsTags(cfg, actions[..|actions| - 1]);
      RunKeepsQueue(cfg, actions[..|actions| - 1]);
      StepKeepsTags(cfg, Run(cfg, actions[..|actions| - 1]).value, actions[|actions| - 1]);
    }
  }

  /**
   * The counterpart for all other out-of-band records: as long as nothing fails and nothing is deleted, a
   * connection of a reusable invitation, or of a record that is no invitation, is stored by its save with
   * the parent of that record, and with the id of the invitation exactly when it is one.
   */
  lemma OpenSaveTags(cfg: Config, s: State, i: nat)
    requires cfg.calm && Reachable(cfg, s) && i < |s.saves| && s.saves[i].stage == Returned
    requires s.saves[i].oob in s.oobs
    requires s.oobs[s.saves[i].oob].reusable || !s.oobs[s.saves[i].oob].invitationRecord
    ensures var save := s.saves[i];
            && save.record in s.connections
            && s.connections[save.record].outOfBandId == Some(save.oob)
            && s.connections[save.record].parent == s.oobs[save.oob].parent
            && (s.connections[save.record].invitationId.Some? <==> s.oobs[save.oob].invitationRecord)
            && (s.connections[save.record].invitationId.Some? ==> s.connections[save.record].invitationId.value == save.oob)
  {
    var actions :| Run(cfg, actions) == Some(s);
    RunKeepsTags(cfg, actions);
    assert TaggingOk(s, s.saves[i]);
  }

  /**
   * A save whose read finds the single-use invitation done, or gone, goes on to storage without the tags,
   * whoever owns it; one that finds it open asks for other claims first.
   */
  lemma DoneInvitationRefuses(cfg: Config, s: State, i: nat)
    requires Enabled(cfg, s, Found(i))
    requires s.saves[i].oob in s.oobs ==> s.oobs[s.saves[i].oob].invitationRecord && !s.oobs[s.saves[i].oob].reusable
    ensures var t := Step(cfg, s, Found(i));
            && t.records == s.records && t.connections == s.connections
            && t.saves[i].stage == if s.saves[i].oob in s.oobs && !s.oobs[s.saves[i].oob].done
                                   then Querying(s.oobs[s.saves[i].oob]) else Storing
  {
  }

  /**
   * After that question the connection claims the invitation, with both tags, unless another connection is
   * stored with its id; then it goes on to storage as it is.
   */
  lemma ClaimRefusedIff(cfg: Config, s: State, i: nat)
    requires Enabled(cfg, s, Queried(i)) && s.saves[i].stage.found.invitationRecord
    ensures var save, t := s.saves[i], Step(cfg, s, Queried(i));
            && t.connections == s.connections && t.saves[i].stage == Storing
            && (if exists c :: c in s.connections && s.connections[c].invitationId == Some(save.oob) && c != save.record
                then t.records == s.records
                else && t.records.Keys == s.records.Keys
                     && t.records[save.record].invitationId == Some(save.oob)
                     && (save.stage.found.parent.Some? ==> t.records[save.record].parent == save.stage.found.parent)
                     && forall r :: r in s.records && r != save.record ==> t.records[r] == s.records[r])
  {
  }
}
