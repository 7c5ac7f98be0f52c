/**
 * Every change of the published material is signalled: the writes of DID records, the coalescing window
 * of the trigger, and the flush at shutdown.
 *
 * Models `updateDidRecord` of packages/agent-sdk/src/utils/publishedDidRecord.ts with
 * `scheduleTriggerResolverForOwnDid` and `flushPendingTriggerResolvers` of
 * packages/agent-sdk/src/blockchain/triggerResolver.ts, as a state machine whose steps are the stretches
 * of code between two awaits. A fingerprint is an integer here; Fingerprints says what it stands for.
 * What a started trigger then does is not part of this model.
 */
module PublicationTrigger {
  import opened Options

  /** One scheduled send; the number is its position among all scheduled sends. */
  datatype Send = Send(number: nat, did: string)

  /** The two fingerprints of a stored record. */
  datatype Prints = Prints(publication: int, document: int)

  /** A call of `updateDidRecord`; `before` is what it read, `None` when the read failed or found nothing. */
  datatype Update = Update(did: string, record: Prints, before: Option<Prints>, publishing: bool)

  /**
   * `changed` holds the DIDs whose stored publication changed since a trigger for them was last started;
   * `flushes` what each running flush has still to send; `latest` the last scheduled send of a DID;
   * `served` the document that was last published for a DID.
   */
  datatype State = State(stored: map<string, Prints>, served: map<string, int>, changed: set<string>,
                         updates: map<nat, Update>,
                         pendingByDid: map<string, Send>, timers: set<Send>, flushes: map<nat, seq<Send>>,
                         latest: map<string, Send>, started: seq<Send>, scheduled: nat, flushed: bool)

  /**
   * How the surroundings behave: publishing the document may throw, a write may throw although storage
   * took the record, updates of one DID may overlap.
   */
  datatype Config = Config(publishMayFail: bool, lateThrows: bool, updatesOverlap: bool)

  predicate Calm(cfg: Config) {
    !cfg.publishMayFail && !cfg.lateThrows && !cfg.updatesOverlap
  }

  datatype Action =
    | BeginUpdate(update: nat, did: string, record: Prints, readable: bool)
    | Write(update: nat)
    | WriteThrows(update: nat)
    | Published(update: nat)
    | Abort(update: nat)
    | TimerFires(send: Send)
    | BeginFlush(flush: nat, sends: seq<Send>)
    | FlushNext(flush: nat)

  const START := State(map[], map[], {}, map[], map[], {}, map[], map[], [], 0, false)

  // ---------------------------------------------------------------- the code between two awaits

  /** `scheduleTriggerResolverForOwnDid`: replaces the pending send and its timer. */
  function Schedule(s: State, did: string): State {
    var send := Send(s.scheduled, did);
    var timers := if did in s.pendingByDid then s.timers - {s.pendingByDid[did]} else s.timers;
    s.(pendingByDid := s.pendingByDid[did := send], timers := timers + {send},
       latest := s.latest[did := send], scheduled := s.scheduled + 1)
  }

  /** `send`: takes whatever is pending for the DID off the map and starts the trigger. */
  function StartTrigger(s: State, send: Send): State {
    s.(pendingByDid := s.pendingByDid - {send.did}, timers := s.timers - {send},
       changed := s.changed - {send.did}, started := s.started + [send])
  }

  /** The update differs from what it read. */
  predicate Differs(u: Update) {
    u.before.Some? ==> u.before.value.publication != u.record.publication
  }

  /** The end of `updateDidRecord`: a different publication fingerprint is signalled. */
  function Compare(s: State, id: nat): State
    requires id in s.updates
  {
    var u := s.updates[id];
    var t := s.(updates := s.updates - {id});
    if Differs(u) then Schedule(t, u.did) else t
  }

  function Store(s: State, u: Update): State {
    var same := u.did in s.stored && s.stored[u.did].publication == u.record.publication;
    s.(stored := s.stored[u.did := u.record], changed := if same then s.changed else s.changed + {u.did})
  }

  /** The changed document of an update is published. */
  function Serve(s: State, id: nat): State
    requires id in s.updates
  {
    s.(served := s.served[s.updates[id].did := s.updates[id].record.document])
  }

  /** The record is stored; a changed document is published before the comparison. */
  function WriteRecord(s: State, id: nat): State
    requires id in s.updates
  {
    var u := s.updates[id];
    var t := Store(s, u);
    if u.before.Some? && u.before.value.document == u.record.document then Compare(t, id)
    else t.(updates := t.updates[id := u.(publishing := true)])
  }

  // ---------------------------------------------------------------- the state machine

  /** The values of the map, each once, in any order. */
  predicate ListsValues(m: map<string, Send>, sends: seq<Send>) {
    && (forall x :: x in sends ==> x.did in m && m[x.did] == x)
    && (forall did :: did in m ==> m[did] in sends)
    && (forall i, j :: 0 <= i < j < |sends| ==> sends[i] != sends[j])
  }

  predicate Enabled(cfg: Config, s: State, a: Action) {
    match a
    case BeginUpdate(id, did, _, _) =>
      id !in s.updates && (cfg.updatesOverlap || forall i :: i in s.updates ==> s.updates[i].did != did)
    case Write(id) => id in s.updates && !s.updates[id].publishing
    case WriteThrows(id) => id in s.updates && !s.updates[id].publishing && cfg.lateThrows
    case Published(id) => id in s.updates && s.updates[id].publishing
    case Abort(id) => id in s.updates && (s.updates[id].publishing ==> cfg.publishMayFail)
    case TimerFires(send) => send in s.timers
    case BeginFlush(f, sends) => f !in s.flushes && ListsValues(s.pendingByDid, sends)
    case FlushNext(f) => f in s.flushes && s.flushes[f] != []
  }

  function Step(cfg: Config, s: State, a: Action): State
    requires Enabled(cfg, s, a)
  {
    match a
    case BeginUpdate(id, did, record, readable) =>
      var before := if readable && did in s.stored then Some(s.stored[did]) else None;
      s.(updates := s.updates[id := Update(did, record, before, false)])
    case Write(id) => WriteRecord(s, id)
    case WriteThrows(id) => Store(s, s.updates[id]).(updates := s.updates - {id})
    case Published(id) => Compare(Serve(s, id), id)
    case Abort(id) => s.(updates := s.updates - {id})
    case TimerFires(send) => StartTrigger(s, send)
    case BeginFlush(f, sends) => s.(pendingByDid := map[], flushes := s.flushes[f := sends], flushed := true)
    case FlushNext(f) => StartTrigger(s.(flushes := s.flushes[f := s.flushes[f][1..]]), s.flushes[f][0])
  }

  ghost function Run(cfg: Config, actions: seq<Action>): Option<State> {
    if actions == [] then Some(START)
    else match Run(cfg, actions[..|actions| - 1])
      case None => None
      case Some(s) =>
        var a := actions[|actions| - 1];
        if Enabled(cfg, s, a) then Some(Step(cfg, s, a)) else None
  }

  ghost predicate Reachable(cfg: Config, s: State) {
    exists actions :: Run(cfg, actions) == Some(s)
  }

  // ---------------------------------------------------------------- signals

  ghost predicate HeldByFlush(s: State, did: string) {
    exists f, x :: f in s.flushes && x in s.flushes[f] && x.did == did
  }

  /** An update has written its record and will schedule a send. */
  ghost predicate AboutToSchedule(s: State, did: string) {
    exists i :: i in s.updates && s.updates[i].did == did && s.updates[i].publishing && Differs(s.updates[i])
  }

  /** A change of the published material of `did` that no trigger has covered will still be signalled. */
  ghost predicate WillSignal(s: State, did: string) {
    did in s.pendingByDid || HeldByFlush(s, did) || AboutToSchedule(s, did)
  }

  ghost predicate Signalled(s: State) {
    forall did :: did in s.changed ==> WillSignal(s, did)
  }

  /** An update that has not written yet knows what is stored, or knows nothing. */
  predicate ReadOk(s: State, i: nat)
    requires i in s.updates
  {
    var u := s.updates[i];
    !u.publishing && u.before.Some? ==> u.did in s.stored && s.stored[u.did] == u.before.value
  }

  predicate SameDid(s: State, i: nat, j: nat)
    requires i in s.updates && j in s.updates
  {
    s.updates[i].did == s.updates[j].did
  }

  ghost predicate ReadsOk(s: State) {
    && (forall i :: i in s.updates ==> ReadOk(s, i))
    && (forall i, j :: i in s.updates && j in s.updates && SameDid(s, i, j) ==> i == j)
  }

  predicate PendingOk(s: State) {
    forall did :: did in s.pendingByDid ==> s.pendingByDid[did].did == did
  }

  ghost predicate Inv(s: State) {
    Signalled(s) && ReadsOk(s) && PendingOk(s)
  }

  lemma BeginKeepsReads(cfg: Config, s: State, a: Action)
    requires ReadsOk(s) && a.BeginUpdate? && Enabled(cfg, s, a) && !cfg.updatesOverlap
    ensures ReadsOk(Step(cfg, s, a))
  {
    var t := Step(cfg, s, a);
    forall i, j | i in t.updates && j in t.updates && SameDid(t, i, j) ensures i == j {
      assert i in s.updates && j in s.updates ==> SameDid(s, i, j) == SameDid(t, i, j);
    }
    forall i | i in t.updates ensures ReadOk(t, i) {
      assert i in s.updates && i != a.update ==> ReadOk(s, i);
    }
  }

  lemma CompareEffect(s: State, id: nat)
    requires id in s.updates
    ensures var t := Compare(s, id);
            && t.stored == s.stored && t.served == s.served && t.changed == s.changed && t.updates == s.updates - {id}
            && t.flushes == s.flushes && t.started == s.started
  {
  }

  lemma WriteEffect(s: State, id: nat)
    requires id in s.updates
    ensures var t, u := WriteRecord(s, id), s.updates[id];
            && t.stored == s.stored[u.did := u.record] && t.served == s.served
            && t.flushes == s.flushes && t.started == s.started && t.changed <= s.changed + {u.did}
            && (t.updates == s.updates - {id} || t.updates == s.updates[id := u.(publishing := true)])
            && (id !in t.updates <==> u.before.Some? && u.before.value.document == u.record.document)
  {
    CompareEffect(Store(s, s.updates[id]), id);
  }

  lemma OtherEffect(cfg: Config, s: State, a: Action)
    requires Enabled(cfg, s, a) && !a.BeginUpdate? && !a.Write? && !a.WriteThrows?
    ensures Step(cfg, s, a).stored == s.stored
    ensures Step(cfg, s, a).updates == if a.Published? || a.Abort? then s.updates - {a.update} else s.updates
  {
  }

  /** What a step does to an update that it does not begin. */
  lemma UpdateAfterStep(cfg: Config, s: State, a: Action, i: nat)
    requires Enabled(cfg, s, a) && !cfg.lateThrows && !a.BeginUpdate? && i in Step(cfg, s, a).updates
    ensures i in s.updates
    ensures Step(cfg, s, a).updates[i] == if a == Write(i) then s.updates[i].(publishing := true) else s.updates[i]
    ensures Step(cfg, s, a).stored ==
            if a.Write? then s.stored[s.updates[a.update].did := s.updates[a.update].record] else s.stored
  {
    if a.Write? {
      WriteEffect(s, a.update);
    } else {
      OtherEffect(cfg, s, a);
    }
  }

  lemma UpdateStays(cfg: Config, s: State, a: Action, i: nat)
    requires Enabled(cfg, s, a) && !cfg.publishMayFail && !cfg.lateThrows && a != Published(i)
    requires i in s.updates && s.updates[i].publishing
    ensures i in Step(cfg, s, a).updates && Step(cfg, s, a).updates[i] == s.updates[i]
  {
    if a.Write? {
      WriteEffect(s, a.update);
    } else if !a.BeginUpdate? {
      OtherEffect(cfg, s, a);
    }
  }

  lemma StepKeepsReads(cfg: Config, s: State, a: Action)
    requires ReadsOk(s) && Enabled(cfg, s, a) && !cfg.updatesOverlap && !cfg.lateThrows
    ensures ReadsOk(Step(cfg, s, a))
  {
    if a.BeginUpdate? {
      BeginKeepsReads(cfg, s, a);
    } else {
      var t := Step(cfg, s, a);
      forall i, j | i in t.updates && j in t.updates && SameDid(t, i, j) ensures i == j {
        UpdateAfterStep(cfg, s, a, i);
        UpdateAfterStep(cfg, s, a, j);
        assert SameDid(s, i, j);
      }
      forall i | i in t.updates ensures ReadOk(t, i) {
        UpdateAfterStep(cfg, s, a, i);
        assert ReadOk(s, i);
        assert a.Write? && SameDid(s, i, a.update) ==> i == a.update;
      }
    }
  }

  lemma StartedByFlush(cfg: Config, s: State, f: nat)
    requires Enabled(cfg, s, FlushNext(f))
    ensures var t, x := Step(cfg, s, FlushNext(f)), s.flushes[f][0];
            && t.flushes == s.flushes[f := s.flushes[f][1..]] && t.started == s.started + [x]
            && t.changed == s.changed - {x.did}
  {
  }

  /** What a step does to the flushes and to the triggers that were started. */
  lemma FlushesAfter(cfg: Config, s: State, a: Action)
    requires Enabled(cfg, s, a)
    ensures Step(cfg, s, a).flushes ==
            if a.BeginFlush? then s.flushes[a.flush := a.sends]
            else if a.FlushNext? then s.flushes[a.flush := s.flushes[a.flush][1..]] else s.flushes
    ensures Step(cfg, s, a).started ==
            s.started + (if a.TimerFires? then [a.send] else if a.FlushNext? then [s.flushes[a.flush][0]] else [])
  {
    if a.Write? {
      WriteEffect(s, a.update);
    } else if a.Published? {
      CompareEffect(Serve(s, a.update), a.update);
    } else if a.FlushNext? {
      StartedByFlush(cfg, s, a.flush);
    }
  }

  lemma FlushKeepsSignal(cfg: Config, s: State, a: Action, did: string)
    requires Enabled(cfg, s, a) && HeldByFlush(s, did)
    requires did in Step(cfg, s, a).changed
    ensures HeldByFlush(Step(cfg, s, a), did)
  {
    var t := Step(cfg, s, a);
    var f, x :| f in s.flushes && x in s.flushes[f] && x.did == did;
    FlushesAfter(cfg, s, a);
    if a.FlushNext? && a.flush == f {
      StartedByFlush(cfg, s, f);
      assert s.flushes[f] == [s.flushes[f][0]] + s.flushes[f][1..];
    }
    assert f in t.flushes && x in t.flushes[f];
  }

  lemma UpdateKeepsSignal(cfg: Config, s: State, a: Action, did: string)
    requires Enabled(cfg, s, a) && !cfg.publishMayFail && !cfg.lateThrows && AboutToSchedule(s, did)
    ensures WillSignal(Step(cfg, s, a), did)
  {
    var t := Step(cfg, s, a);
    var i :| i in s.updates && s.updates[i].did == did && s.updates[i].publishing && Differs(s.updates[i]);
    if a == Published(i) {
      assert did in t.pendingByDid;
    } else {
      UpdateStays(cfg, s, a, i);
    }
  }

  lemma PendingStays(cfg: Config, s: State, a: Action, did: string)
    requires Enabled(cfg, s, a) && !a.BeginFlush? && did in s.pendingByDid && did in Step(cfg, s, a).changed
    ensures did in Step(cfg, s, a).pendingByDid
  {
  }

  lemma PendingKeepsSignal(cfg: Config, s: State, a: Action, did: string)
    requires Enabled(cfg, s, a) && did in s.pendingByDid && PendingOk(s) && did in Step(cfg, s, a).changed
    ensures did in Step(cfg, s, a).pendingByDid || HeldByFlush(Step(cfg, s, a), did)
  {
    if a.BeginFlush? {
      assert s.pendingByDid[did] in Step(cfg, s, a).flushes[a.flush];
    } else {
      PendingStays(cfg, s, a, did);
    }
  }

  /** A signal to come stays, unless the step starts the trigger of that DID. */
  lemma StepKeepsSignal(cfg: Config, s: State, a: Action, did: string)
    requires Enabled(cfg, s, a) && !cfg.publishMayFail && !cfg.lateThrows && WillSignal(s, did) && PendingOk(s)
    requires did in Step(cfg, s, a).changed
    ensures WillSignal(Step(cfg, s, a), did)
  {
    if HeldByFlush(s, did) {
      FlushKeepsSignal(cfg, s, a, did);
    } else if AboutToSchedule(s, did) {
      UpdateKeepsSignal(cfg, s, a, did);
    } else {
      PendingKeepsSignal(cfg, s, a, did);
    }
  }

  /** A comparison that finds a difference leaves a send pending. */
  lemma CompareLeavesPending(s: State, id: nat)
    requires id in s.updates && Differs(s.updates[id])
    ensures s.updates[id].did in Compare(s, id).pendingByDid
  {
  }

  lemma WriteSignals(cfg: Config, s: State, id: nat)
    requires ReadsOk(s) && Enabled(cfg, s, Write(id)) && s.updates[id].did !in s.changed
    requires s.updates[id].did in WriteRecord(s, id).changed
    ensures WillSignal(WriteRecord(s, id), s.updates[id].did)
  {
    var t, u := WriteRecord(s, id), s.updates[id];
    assert ReadOk(s, id);
    CompareEffect(Store(s, u), id);
    assert Differs(u);
    if id in t.updates {
      assert AboutToSchedule(t, u.did);
    } else {
      CompareLeavesPending(Store(s, u), id);
    }
  }

  /** Only a write changes a publication; a throwing one is no step here. */
  lemma ChangeIsWrite(cfg: Config, s: State, a: Action, did: string)
    requires Enabled(cfg, s, a) && !cfg.lateThrows && did in Step(cfg, s, a).changed && did !in s.changed
    ensures a.Write? && s.updates[a.update].did == did
  {
    if a.Write? {
      WriteEffect(s, a.update);
    } else if a.Published? {
      CompareEffect(Serve(s, a.update), a.update);
    }
  }

  lemma StepKeepsPending(cfg: Config, s: State, a: Action)
    requires PendingOk(s) && Enabled(cfg, s, a)
    ensures PendingOk(Step(cfg, s, a))
  {
    forall did | did in Step(cfg, s, a).pendingByDid ensures Step(cfg, s, a).pendingByDid[did].did == did {
      PendingAfter(cfg, s, a, did);
    }
  }

  lemma StepKeepsInv(cfg: Config, s: State, a: Action)
    requires Inv(s) && Enabled(cfg, s, a) && Calm(cfg)
    ensures Inv(Step(cfg, s, a))
  {
    StepKeepsReads(cfg, s, a);
    StepKeepsPending(cfg, s, a);
    forall did | did in Step(cfg, s, a).changed ensures WillSignal(Step(cfg, s, a), did) {
      if did in s.changed {
        StepKeepsSignal(cfg, s, a, did);
      } else {
        ChangeIsWrite(cfg, s, a, did);
        WriteSignals(cfg, s, a.update);
      }
    }
  }

  lemma {:induction false} RunKeepsInv(cfg: Config, actions: seq<Action>)
    requires Calm(cfg) && Run(cfg, actions).Some?
    ensures Inv(Run(cfg, actions).value)
  {
    if actions != [] {
      RunKeepsInv(cfg, actions[..|actions| - 1]);
      StepKeepsInv(cfg, Run(cfg, actions[..|actions| - 1]).value, actions[|actions| - 1]);
    }
  }

  // ---------------------------------------------------------------- where signals get lost

  lemma ReachStep(cfg: Config, s: State, a: Action)
    requires Reachable(cfg, s) && Enabled(cfg, s, a)
    ensures Reachable(cfg, Step(cfg, s, a))
  {
    var actions :| Run(cfg, actions) == Some(s);
    assert (actions + [a])[..|actions + [a]| - 1] == actions;
    assert Run(cfg, actions + [a]) == Some(Step(cfg, s, a));
  }

  /** The first record of a DID is written, and its document is about to be published. */
  lemma FirstWrite(cfg: Config, did: string) returns (s: State)
    ensures Reachable(cfg, s)
    ensures s == START.(stored := map[did := Prints(1, 1)], changed := {did},
                        updates := map[0 := Update(did, Prints(1, 1), None, true)])
  {
    assert Run(cfg, []) == Some(START);
    ReachStep(cfg, START, BeginUpdate(0, did, Prints(1, 1), true));
    var s1 := Step(cfg, START, BeginUpdate(0, did, Prints(1, 1), true));
    ReachStep(cfg, s1, Write(0));
    s := Step(cfg, s1, Write(0));
  }

  /** The record is stored and its publication throws: nothing will signal the change. */
  lemma FailedPublicationIsSilent(cfg: Config) returns (s: State)
    requires cfg.publishMayFail
    ensures Reachable(cfg, s) && !Signalled(s)
  {
    var s1 := FirstWrite(cfg, "did");
    ReachStep(cfg, s1, Abort(0));
    s := Step(cfg, s1, Abort(0));
    assert "did" in s.changed && !WillSignal(s, "did");
  }

  /** Storage takes the record although the write throws: nothing will signal the change. */
  lemma LateThrowIsSilent(cfg: Config) returns (s: State)
    requires cfg.lateThrows
    ensures Reachable(cfg, s) && !Signalled(s)
  {
    assert Run(cfg, []) == Some(START);
    ReachStep(cfg, START, BeginUpdate(0, "did", Prints(1, 1), true));
    var s1 := Step(cfg, START, BeginUpdate(0, "did", Prints(1, 1), true));
    ReachStep(cfg, s1, WriteThrows(0));
    s := Step(cfg, s1, WriteThrows(0));
    assert "did" in s.changed && !WillSignal(s, "did");
  }

  /** A record is stored and signalled. */
  lemma SignalledRecord(cfg: Config, did: string) returns (s: State)
    ensures Reachable(cfg, s)
    ensures s.stored == map[did := Prints(1, 1)] && s.changed == {} && s.updates == map[] && s.timers == {}
    ensures s.pendingByDid == map[] && s.flushes == map[] && s.scheduled == 1
  {
    var s1 := FirstWrite(cfg, did);
    ReachStep(cfg, s1, Published(0));
    var s2 := Step(cfg, s1, Published(0));
    ReachStep(cfg, s2, TimerFires(Send(0, did)));
    s := Step(cfg, s2, TimerFires(Send(0, did)));
  }

  /** Two updates read the same record; the second one puts back what the first one replaced and signalled. */
  lemma OverlappingUpdatesAreSilent(cfg: Config) returns (s: State)
    requires cfg.updatesOverlap
    ensures Reachable(cfg, s) && !Signalled(s)
  {
    var did := "did";
    var s1 := SignalledRecord(cfg, did);
    ReachStep(cfg, s1, BeginUpdate(1, did, Prints(1, 1), true));
    var s2 := Step(cfg, s1, BeginUpdate(1, did, Prints(1, 1), true));
    ReachStep(cfg, s2, BeginUpdate(2, did, Prints(2, 1), true));
    var s3 := Step(cfg, s2, BeginUpdate(2, did, Prints(2, 1), true));
    ReachStep(cfg, s3, Write(2));
    var s4 := Step(cfg, s3, Write(2));
    ReachStep(cfg, s4, TimerFires(Send(1, did)));
    var s5 := Step(cfg, s4, TimerFires(Send(1, did)));
    assert s5.updates == map[1 := Update(did, Prints(1, 1), Some(Prints(1, 1)), false)];
    ReachStep(cfg, s5, Write(1));
    s := Step(cfg, s5, Write(1));
    assert did in s.changed && !WillSignal(s, did);
  }

  /**
   * Main result. Whenever the publication of a DID changed since its trigger was last started, a send is
   * pending, held by a flush, or about to be scheduled: in every run exactly when publishing never throws,
   * no write that storage took throws, and the updates of one DID do not overlap.
   */
  lemma EveryChangeIsSignalledIff(cfg: Config)
    ensures (forall s :: Reachable(cfg, s) ==> Signalled(s)) <==> Calm(cfg)
  {
    if cfg.publishMayFail {
      var s := FailedPublicationIsSilent(cfg);
    } else if cfg.lateThrows {
      var s := LateThrowIsSilent(cfg);
    } else if cfg.updatesOverlap {
      var s := OverlappingUpdatesAreSilent(cfg);
    } else {
      forall s | Reachable(cfg, s) ensures Signalled(s) {
        var actions :| Run(cfg, actions) == Some(s);
        RunKeepsInv(cfg, actions);
      }
    }
  }

  // ---------------------------------------------------------------- the document is published

  /** The stored document of the DID is the one published last, or an update is about to publish it. */
  ghost predicate Serves(s: State, did: string)
    requires did in s.stored
  {
    || (did in s.served && s.served[did] == s.stored[did].document)
    || exists i :: i in s.updates && s.updates[i].did == did && s.updates[i].publishing && s.updates[i].record == s.stored[did]
  }

  ghost predicate DocumentsServed(s: State) {
    forall did :: did in s.stored ==> Serves(s, did)
  }

  /** An update on its way to publish has stored its record. */
  ghost predicate PublishingOk(s: State) {
    forall i :: i in s.updates && s.updates[i].publishing ==>
      s.updates[i].did in s.stored && s.stored[s.updates[i].did] == s.updates[i].record
  }

  lemma WriteKeepsPublishing(s: State, id: nat)
    requires ReadsOk(s) && PublishingOk(s) && id in s.updates && !s.updates[id].publishing
    ensures PublishingOk(WriteRecord(s, id))
  {
    var t := WriteRecord(s, id);
    WriteEffect(s, id);
    forall i | i in t.updates && t.updates[i].publishing
      ensures t.updates[i].did in t.stored && t.stored[t.updates[i].did] == t.updates[i].record
    {
      if i != id {
        assert i in s.updates && t.updates[i] == s.updates[i];
        assert !SameDid(s, i, id);
      }
    }
  }

  lemma StepKeepsPublishing(cfg: Config, s: State, a: Action)
    requires ReadsOk(s) && PublishingOk(s) && Enabled(cfg, s, a) && Calm(cfg)
    ensures PublishingOk(Step(cfg, s, a))
  {
    if a.Write? {
      WriteKeepsPublishing(s, a.update);
    } else if !a.BeginUpdate? {
      OtherEffect(cfg, s, a);
    }
  }

  lemma WriteServes(s: State, id: nat, did: string)
    requires ReadsOk(s) && PublishingOk(s) && DocumentsServed(s) && id in s.updates && !s.updates[id].publishing
    requires did in WriteRecord(s, id).stored
    ensures Serves(WriteRecord(s, id), did)
  {
    var t, u := WriteRecord(s, id), s.updates[id];
    WriteEffect(s, id);
    assert t.served == s.served;
    assert ReadOk(s, id);
    if did == u.did {
      if id !in t.updates {
        assert s.stored[did].document == u.record.document && Serves(s, did);
        if i :| i in s.updates && s.updates[i].did == did && s.updates[i].publishing && s.updates[i].record == s.stored[did] {
          assert SameDid(s, i, id);
        }
      }
    } else {
      assert Serves(s, did);
      if i :| i in s.updates && s.updates[i].did == did && s.updates[i].publishing && s.updates[i].record == s.stored[did] {
        assert i != id && i in t.updates && t.updates[i] == s.updates[i];
      }
    }
  }

  /** What the other steps do to what is stored and served. */
  lemma ServedAfter(cfg: Config, s: State, a: Action)
    requires Enabled(cfg, s, a) && !a.Write? && !a.WriteThrows?
    ensures Step(cfg, s, a).stored == s.stored
    ensures Step(cfg, s, a).served ==
            if a.Published? then s.served[s.updates[a.update].did := s.updates[a.update].record.document] else s.served
  {
    if a.Published? {
      CompareEffect(Serve(s, a.update), a.update);
    }
  }

  lemma StepServes(cfg: Config, s: State, a: Action, did: string)
    requires ReadsOk(s) && PublishingOk(s) && DocumentsServed(s) && Enabled(cfg, s, a) && Calm(cfg)
    requires did in Step(cfg, s, a).stored
    ensures Serves(Step(cfg, s, a), did)
  {
    if a.Write? {
      WriteServes(s, a.update, did);
    } else {
      ServedAfter(cfg, s, a);
      assert Serves(s, did);
      if i :| i in s.updates && s.updates[i].did == did && s.updates[i].publishing && s.updates[i].record == s.stored[did] {
        if a != Published(i) {
          UpdateStays(cfg, s, a, i);
        }
      }
    }
  }

  lemma {:induction false} RunServes(cfg: Config, actions: seq<Action>)
    requires Calm(cfg) && Run(cfg, actions).Some?
    ensures PublishingOk(Run(cfg, actions).value) && DocumentsServed(Run(cfg, actions).value)
  {
    if actions != [] {
      var s, a := Run(cfg, actions[..|actions| - 1]).value, actions[|actions| - 1];
      RunServes(cfg, actions[..|actions| - 1]);
      RunKeepsInv(cfg, actions[..|actions| - 1]);
      StepKeepsPublishing(cfg, s, a);
      forall did | did in Step(cfg, s, a).stored ensures Serves(Step(cfg, s, a), did) {
        StepServes(cfg, s, a, did);
      }
    }
  }

  /** Two updates read one record; the second writes back the document that the first had replaced. */
  lemma OverlappingUpdateIsNotServed(cfg: Config) returns (s: State)
    requires cfg.updatesOverlap
    ensures Reachable(cfg, s) && !DocumentsServed(s)
  {
    var did := "did";
    var s0 := FirstWrite(cfg, did);
    ReachStep(cfg, s0, Published(0));
    var s1 := Step(cfg, s0, Published(0));
    ReachStep(cfg, s1, BeginUpdate(1, did, Prints(1, 1), true));
    var s2 := Step(cfg, s1, BeginUpdate(1, did, Prints(1, 1), true));
    ReachStep(cfg, s2, BeginUpdate(2, did, Prints(1, 2), true));
    var s3 := Step(cfg, s2, BeginUpdate(2, did, Prints(1, 2), true));
    ReachStep(cfg, s3, Write(2));
    var s4 := Step(cfg, s3, Write(2));
    ReachStep(cfg, s4, Published(2));
    var s5 := Step(cfg, s4, Published(2));
    assert s5.updates == map[1 := Update(did, Prints(1, 1), Some(Prints(1, 1)), false)] && s5.served == map[did := 2];
    ReachStep(cfg, s5, Write(1));
    s := Step(cfg, s5, Write(1));
    assert did in s.stored && s.stored[did].document == 1 && !Serves(s, did);
  }

  /** A stored document is not published: its publication has thrown, or the write that storage took. */
  lemma ThrownUpdateIsNotServed(cfg: Config) returns (s: State)
    requires cfg.publishMayFail || cfg.lateThrows
    ensures Reachable(cfg, s) && !DocumentsServed(s)
  {
    if cfg.publishMayFail {
      var s1 := FirstWrite(cfg, "did");
      ReachStep(cfg, s1, Abort(0));
      s := Step(cfg, s1, Abort(0));
    } else {
      assert Run(cfg, []) == Some(START);
      ReachStep(cfg, START, BeginUpdate(0, "did", Prints(1, 1), true));
      var s1 := Step(cfg, START, BeginUpdate(0, "did", Prints(1, 1), true));
      ReachStep(cfg, s1, WriteThrows(0));
      s := Step(cfg, s1, WriteThrows(0));
    }
    assert "did" in s.stored && !Serves(s, "did");
  }

  /**
   * The stored document of every DID is the one that was published last, or is about to be published: in
   * every run exactly when publishing never throws, no write that storage took throws, and the updates of
   * one DID do not overlap.
   */
  lemma DocumentIsServedIff(cfg: Config)
    ensures (forall s :: Reachable(cfg, s) ==> DocumentsServed(s)) <==> Calm(cfg)
  {
    if cfg.publishMayFail || cfg.lateThrows {
      var s := ThrownUpdateIsNotServed(cfg);
    } else if cfg.updatesOverlap {
      var s := OverlappingUpdateIsNotServed(cfg);
    } else {
      forall s | Reachable(cfg, s) ensures DocumentsServed(s) {
        var actions :| Run(cfg, actions) == Some(s);
        RunServes(cfg, actions);
      }
    }
  }

  /** The end of an update counts one more send exactly when the publications differ. */
  lemma CompareSchedules(s: State, id: nat)
    requires id in s.updates
    ensures Compare(s, id).scheduled ==
            s.scheduled + if s.updates[id].before == None ||
                             s.updates[id].before.value.publication != s.updates[id].record.publication then 1 else 0
  {
  }

  /**
   * And nothing else is signalled: a step schedules a send exactly when it ends an update whose publication
   * fingerprint differs from the one it read, or that read none.
   */
  lemma SchedulesIff(cfg: Config, s: State, a: Action)
    requires Enabled(cfg, s, a)
    ensures Step(cfg, s, a).scheduled ==
            s.scheduled +
            if (a.Write? || a.Published?) && a.update !in Step(cfg, s, a).updates &&
               (s.updates[a.update].before == None ||
                s.updates[a.update].before.value.publication != s.updates[a.update].record.publication) then 1 else 0
  {
    if a.Write? {
      WriteEffect(s, a.update);
      CompareSchedules(Store(s, s.updates[a.update]), a.update);
    } else if a.Published? {
      CompareSchedules(Serve(s, a.update), a.update);
    }
  }

  // ---------------------------------------------------------------- coalescing and flush

  /** Every timer runs for a scheduled send; without a flush it is the pending one of its DID, and the latest. */
  ghost predicate TimersOk(s: State) {
    && (forall x :: x in s.timers ==> x.number < s.scheduled)
    && (forall did :: did in s.pendingByDid ==>
          s.pendingByDid[did] in s.timers && did in s.latest && s.latest[did] == s.pendingByDid[did] &&
          s.pendingByDid[did].did == did)
    && (!s.flushed ==> s.flushes == map[])
    && (!s.flushed ==> forall x :: x in s.timers ==> x.did in s.pendingByDid && s.pendingByDid[x.did] == x)
  }

  lemma ScheduleKeepsTimers(s: State, did: string)
    requires TimersOk(s)
    ensures TimersOk(Schedule(s, did))
  {
  }

  lemma StartKeepsTimers(s: State, send: Send)
    requires TimersOk(s) && (send in s.timers || s.flushed)
    ensures TimersOk(StartTrigger(s, send))
  {
  }

  lemma CompareKeepsTimers(s: State, id: nat)
    requires TimersOk(s) && id in s.updates
    ensures TimersOk(Compare(s, id))
  {
    if Differs(s.updates[id]) {
      ScheduleKeepsTimers(s.(updates := s.updates - {id}), s.updates[id].did);
    }
  }

  lemma StoreKeepsTimers(s: State, u: Update)
    requires TimersOk(s)
    ensures TimersOk(Store(s, u)) && Store(s, u).updates == s.updates
  {
  }

  lemma WriteKeepsTimers(s: State, id: nat)
    requires TimersOk(s) && id in s.updates
    ensures TimersOk(WriteRecord(s, id))
  {
    var u := s.updates[id];
    StoreKeepsTimers(s, u);
    if u.before.Some? && u.before.value.document == u.record.document {
      CompareKeepsTimers(Store(s, u), id);
    }
  }

  lemma StepKeepsTimers(cfg: Config, s: State, a: Action)
    requires TimersOk(s) && Enabled(cfg, s, a)
    ensures TimersOk(Step(cfg, s, a))
  {
    if a.Write? {
      WriteKeepsTimers(s, a.update);
    } else if a.Published? {
      CompareKeepsTimers(Serve(s, a.update), a.update);
    } else if a.TimerFires? {
      StartKeepsTimers(s, a.send);
    } else if a.FlushNext? {
      StartKeepsTimers(s.(flushes := s.flushes[a.flush := s.flushes[a.flush][1..]]), s.flushes[a.flush][0]);
    }
  }

  lemma {:induction false} RunKeepsTimers(cfg: Config, actions: seq<Action>)
    requires Run(cfg, actions).Some?
    ensures TimersOk(Run(cfg, actions).value)
  {
    if actions != [] {
      RunKeepsTimers(cfg, actions[..|actions| - 1]);
      StepKeepsTimers(cfg, Run(cfg, actions[..|actions| - 1]).value, actions[|actions| - 1]);
    }
  }

  /** Until the first flush, at most one timer runs for a DID, and it sends what was scheduled last. */
  lemma BurstsCoalesce(cfg: Config, s: State, x: Send, y: Send)
    requires Reachable(cfg, s) && !s.flushed && x in s.timers && y in s.timers && x.did == y.did
    ensures x == y && x.did in s.latest && s.latest[x.did] == x
  {
    var actions :| Run(cfg, actions) == Some(s);
    RunKeepsTimers(cfg, actions);
  }

  /** A pending send has a running timer, and it is the last one that was scheduled for its DID. */
  lemma PendingIsLatest(cfg: Config, s: State, did: string)
    requires Reachable(cfg, s) && did in s.pendingByDid
    ensures s.pendingByDid[did] in s.timers && did in s.latest && s.latest[did] == s.pendingByDid[did]
  {
    var actions :| Run(cfg, actions) == Some(s);
    RunKeepsTimers(cfg, actions);
  }

  // ---------------------------------------------------------------- a send is held once

  /** A flush holds each send once, and none that another flush holds or that is pending. */
  ghost predicate HeldOnce(s: State) {
    && (forall f, x :: f in s.flushes && x in s.flushes[f] ==>
          x.number < s.scheduled && (x.did in s.pendingByDid ==> s.pendingByDid[x.did] != x))
    && (forall f, i, j :: f in s.flushes && 0 <= i < j < |s.flushes[f]| ==> s.flushes[f][i] != s.flushes[f][j])
    && (forall f, g, x :: f in s.flushes && g in s.flushes && x in s.flushes[f] && x in s.flushes[g] ==> f == g)
    && (forall did :: did in s.pendingByDid ==> s.pendingByDid[did].number < s.scheduled && s.pendingByDid[did].did == did)
  }

  /** The pending entry of `did` in `t` is the one in `s`, or a new send. */
  predicate PendingFrom(s: State, t: State, did: string)
    requires did in t.pendingByDid
  {
    || (did in s.pendingByDid && t.pendingByDid[did] == s.pendingByDid[did])
    || (t.pendingByDid[did] == Send(s.scheduled, did) && t.scheduled == s.scheduled + 1)
  }

  lemma ComparePending(s: State, id: nat, did: string)
    requires id in s.updates && did in Compare(s, id).pendingByDid
    ensures PendingFrom(s, Compare(s, id), did)
  {
  }

  lemma WritePending(s: State, id: nat, did: string)
    requires id in s.updates && did in WriteRecord(s, id).pendingByDid
    ensures PendingFrom(s, WriteRecord(s, id), did)
  {
    var u := s.updates[id];
    if u.before.Some? && u.before.value.document == u.record.document {
      ComparePending(Store(s, u), id, did);
    }
  }

  /** A pending entry is an earlier one, which no flush has just taken over, or a new send. */
  lemma PendingAfter(cfg: Config, s: State, a: Action, did: string)
    requires Enabled(cfg, s, a) && did in Step(cfg, s, a).pendingByDid
    ensures !a.BeginFlush? && PendingFrom(s, Step(cfg, s, a), did)
  {
    if a.Write? {
      WritePending(s, a.update, did);
    } else if a.Published? {
      ComparePending(Serve(s, a.update), a.update, did);
    }
  }

  lemma ScheduledOnlyGrows(cfg: Config, s: State, a: Action)
    requires Enabled(cfg, s, a)
    ensures s.scheduled <= Step(cfg, s, a).scheduled
  {
    SchedulesIff(cfg, s, a);
  }

  /** What a flush holds after a step it held before, or has just taken over. */
  lemma HeldAfter(cfg: Config, s: State, a: Action, f: nat, x: Send)
    requires HeldOnce(s) && Enabled(cfg, s, a) && f in Step(cfg, s, a).flushes && x in Step(cfg, s, a).flushes[f]
    ensures (f in s.flushes && x in s.flushes[f]) || (a.BeginFlush? && x.did in s.pendingByDid && s.pendingByDid[x.did] == x)
    ensures x.number < s.scheduled
    ensures x.did in Step(cfg, s, a).pendingByDid ==> Step(cfg, s, a).pendingByDid[x.did] != x
  {
    FlushesAfter(cfg, s, a);
    if x.did in Step(cfg, s, a).pendingByDid {
      PendingAfter(cfg, s, a, x.did);
    }
  }

  lemma StepHoldsOnce(cfg: Config, s: State, a: Action)
    requires HeldOnce(s) && Enabled(cfg, s, a)
    ensures HeldOnce(Step(cfg, s, a))
  {
    var t := Step(cfg, s, a);
    FlushesAfter(cfg, s, a);
    ScheduledOnlyGrows(cfg, s, a);
    forall did | did in t.pendingByDid
      ensures t.pendingByDid[did].number < t.scheduled && t.pendingByDid[did].did == did
    {
      PendingAfter(cfg, s, a, did);
    }
    forall f, x | f in t.flushes && x in t.flushes[f]
      ensures x.number < t.scheduled && (x.did in t.pendingByDid ==> t.pendingByDid[x.did] != x)
    {
      HeldAfter(cfg, s, a, f, x);
    }
  }

  lemma {:induction false} RunHoldsOnce(cfg: Config, actions: seq<Action>)
    requires Run(cfg, actions).Some?
    ensures HeldOnce(Run(cfg, actions).value)
  {
    if actions != [] {
      RunHoldsOnce(cfg, actions[..|actions| - 1]);
      StepHoldsOnce(cfg, Run(cfg, actions[..|actions| - 1]).value, actions[|actions| - 1]);
    }
  }

  /** In every run a flush takes its sends over: none is still pending, held twice, or held by another flush. */
  lemma FlushTakesOver(cfg: Config, s: State, f: nat, i: nat)
    requires Reachable(cfg, s) && f in s.flushes && i < |s.flushes[f]|
    ensures forall did :: did in s.pendingByDid ==> s.pendingByDid[did] != s.flushes[f][i]
    ensures forall g, j :: g in s.flushes && 0 <= j < |s.flushes[g]| && s.flushes[g][j] == s.flushes[f][i] ==> g == f && j == i
  {
    var actions :| Run(cfg, actions) == Some(s);
    RunHoldsOnce(cfg, actions);
    var x := s.flushes[f][i];
    assert x in s.flushes[f];
    forall g, j | g in s.flushes && 0 <= j < |s.flushes[g]| && s.flushes[g][j] == x ensures g == f && j == i {
      assert x in s.flushes[g];
    }
  }

  /** What a flush holds it still holds later, or has started: nothing is dropped. */
  lemma {:induction false} FlushDropsNothing(cfg: Config, actions: seq<Action>, n: nat, f: nat, x: Send)
    requires n <= |actions| && Run(cfg, actions[..n]).Some? && Run(cfg, actions).Some?
    requires f in Run(cfg, actions[..n]).value.flushes && x in Run(cfg, actions[..n]).value.flushes[f]
    ensures f in Run(cfg, actions).value.flushes
    ensures x in Run(cfg, actions).value.flushes[f] || x in Run(cfg, actions).value.started
    decreases |actions|
  {
    if n == |actions| {
      assert actions[..n] == actions;
    } else {
      var front, a := actions[..|actions| - 1], actions[|actions| - 1];
      assert front[..n] == actions[..n];
      FlushDropsNothing(cfg, front, n, f, x);
      FlushStepDropsNothing(cfg, Run(cfg, front).value, a, f, x);
    }
  }

  lemma FlushStepDropsNothing(cfg: Config, s: State, a: Action, f: nat, x: Send)
    requires Enabled(cfg, s, a) && f in s.flushes && (x in s.flushes[f] || x in s.started)
    ensures f in Step(cfg, s, a).flushes && (x in Step(cfg, s, a).flushes[f] || x in Step(cfg, s, a).started)
  {
    FlushesAfter(cfg, s, a);
    if a.FlushNext? && a.flush == f {
      assert s.flushes[f] == [s.flushes[f][0]] + s.flushes[f][1..];
    }
  }

  /** A whole `updateDidRecord` whose publication returns, with no other step in between. */
  function Finished(s: State, id: nat): State
    requires id in s.updates
  {
    var w := WriteRecord(s, id);
    if id in w.updates then Compare(Serve(w, id), id) else w
  }

  lemma FinishedEffect(s: State, id: nat)
    requires id in s.updates
    ensures var w, u := WriteRecord(s, id), s.updates[id];
            var base := s.(stored := w.stored, served := Finished(s, id).served, changed := w.changed, updates := s.updates - {id});
            Finished(s, id) == if Differs(u) then Schedule(base, u.did) else base
  {
    var u := s.updates[id];
    var t := s.(stored := s.stored[u.did := u.record], changed := WriteRecord(s, id).changed);
    assert t.updates[id := u.(publishing := true)] - {id} == t.updates - {id};
  }

  // ---------------------------------------------------------------- the modules' state

  /** What the two modules keep: the map of pending sends, their timers, and the stored records. */
  class TriggerResolvers {
    var stored: map<string, Prints>
    var pendingByDid: map<string, Send>
    var timers: set<Send>
    var started: seq<Send>
    var scheduled: nat

    constructor ()
      ensures stored == map[] && pendingByDid == map[] && timers == {} && started == [] && scheduled == 0
    {
      stored, pendingByDid, timers, started, scheduled := map[], map[], {}, [], 0;
    }

    /** The state with the parts that only the specification follows. */
    ghost function View(s: State): State
      reads this
    {
      s.(stored := stored, pendingByDid := pendingByDid, timers := timers, started := started, scheduled := scheduled)
    }

    /** `scheduleTriggerResolverForOwnDid`. */
    method ScheduleTrigger(did: string, ghost s: State)
      requires View(s) == s
      modifies this`pendingByDid, this`timers, this`scheduled
      ensures View(Schedule(s, did)) == Schedule(s, did)
    {
      if did in pendingByDid {
        timers := timers - {pendingByDid[did]};
      }
      var send := Send(scheduled, did);
      timers := timers + {send};
      scheduled := scheduled + 1;
      pendingByDid := pendingByDid[did := send];
    }

    /** `send`. */
    method SendNow(send: Send, ghost s: State)
      requires View(s) == s
      modifies this`pendingByDid, this`timers, this`started
      ensures View(StartTrigger(s, send)) == StartTrigger(s, send)
      ensures pendingByDid == old(pendingByDid) - {send.did} && timers == old(timers) - {send}
      ensures started == old(started) + [send]
    {
      timers := timers - {send};
      pendingByDid := pendingByDid - {send.did};
      started := started + [send];
    }

    /** `flushPendingTriggerResolvers`, when nothing else runs in between: all pending sends start, in order. */
    method FlushPendingTriggers(pending: seq<Send>)
      requires ListsValues(pendingByDid, pending)
      modifies this`pendingByDid, this`timers, this`started
      ensures pendingByDid == map[] && started == old(started) + pending
      ensures timers == old(timers) - set x | x in pending
    {
      pendingByDid := map[];
      var i := 0;
      while i < |pending|
        invariant i <= |pending| && pendingByDid == map[]
        invariant started == old(started) + pending[..i]
        invariant timers == old(timers) - set x | x in pending[..i]
      {
        SendNow(pending[i], START.(stored := stored, pendingByDid := pendingByDid, timers := timers,
                                   started := started, scheduled := scheduled));
        assert pending[..i + 1] == pending[..i] + [pending[i]];
        i := i + 1;
      }
      assert pending[..|pending|] == pending;
    }

    /** `updateDidRecord` from the write to the end, when the publication returns. */
    method UpdateDidRecord(u: Update, ghost s: State, ghost id: nat)
      requires View(s) == s && id in s.updates && s.updates[id] == u && !u.publishing
      modifies this
      ensures View(Finished(s, id)) == Finished(s, id)
    {
      stored := stored[u.did := u.record];
      FinishedEffect(s, id);
      if u.before.Some? && u.before.value.publication == u.record.publication {
        return;
      }
      ScheduleTrigger(u.did, s.(stored := stored, served := Finished(s, id).served, changed := WriteRecord(s, id).changed,
                                updates := s.updates - {id}));
    }
  }
}
