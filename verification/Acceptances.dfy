/**
 * The acceptances of invitation records: accepts of one record take turns, and each reads the record,
 * checks it, writes it back and reports it.
 *
 * Models packages/agent-sdk/src/events/InvitationEvents.ts as a state machine whose steps are the
 * stretches of code between two awaits. Reads and writes may fail, records may be deleted in between,
 * and the process may restart. Storage takes a write while its await is open; the await then returns,
 * throws after all, or is lost with the process. The time of an acceptance is not part of this model.
 */
module Acceptances {
  import opened Options
  import KeyedQueue

  datatype InvitationState = Created | Accepted

  datatype Acceptance = Acceptance(connection: string, reused: bool)

  datatype Record = Record(reusable: bool, state: InvitationState, acceptances: seq<Acceptance>)

  /** `Written` is a write that storage has taken and whose await is still open. */
  datatype Stage =
    | Chained
    | Reading
    | Writing(next: Record, previous: InvitationState)
    | Written(previous: InvitationState)
    | Finished

  datatype Accept = Accept(invitation: string, acceptance: Acceptance, stage: Stage)

  /** The event that follows a written acceptance. */
  datatype Event = StateUpdated(invitation: string, acceptance: Acceptance, previous: InvitationState)

  /**
   * How the surroundings behave. `lateThrows`: an update may throw although storage took the write.
   * `crashes`: the process may restart between the write and the return of its update.
   */
  datatype Config = Config(lateThrows: bool, crashes: bool)

  /** `created` holds the ids of all records so far: an id is never used again. */
  datatype State = State(records: map<string, Record>, created: set<string>, queue: KeyedQueue.Queue,
                         accepts: seq<Accept>, events: seq<Event>)

  datatype Action =
    | CreateRecord(id: string, reusable: bool)
    | DeleteRecord(id: string)
    | CallAccept(id: string, acceptance: Acceptance)
    | BeginAccept(accept: nat)
    | ReadReturns(accept: nat)
    | WriteLands(accept: nat)
    | WriteReturns(accept: nat)
    | AwaitThrows(accept: nat)
    | CleanUp(accept: nat)
    | Restart

  const START := State(map[], {}, KeyedQueue.EMPTY_QUEUE, [], [])

  // ---------------------------------------------------------------- the code between two awaits

  predicate RecordedBefore(record: Record, connection: string) {
    exists i :: 0 <= i < |record.acceptances| && record.acceptances[i] == Acceptance(connection, false)
  }

  /** The checks of `recordAcceptance`; `None` refuses or skips the acceptance. */
  function Check(record: Option<Record>, a: Acceptance): Option<Record> {
    if record.None? then None
    else if !a.reused && RecordedBefore(record.value, a.connection) then None
    else if !record.value.reusable && record.value.state == Accepted then None
    else Some(record.value.(state := Accepted, acceptances := record.value.acceptances + [a]))
  }

  function At(s: State, i: nat, stage: Stage): State
    requires i < |s.accepts|
  {
    s.(accepts := s.accepts[i := s.accepts[i].(stage := stage)])
  }

  predicate AcceptAt(s: State, i: nat) {
    i < |s.accepts| && i < |s.queue.runs|
  }

  function Finish(s: State, i: nat): State
    requires AcceptAt(s, i)
  {
    At(s, i, Finished).(queue := KeyedQueue.SettleRun(s.queue, i))
  }

  function Find(s: State, id: string): Option<Record> {
    if id in s.records then Some(s.records[id]) else None
  }

  function AfterRead(s: State, i: nat): State
    requires AcceptAt(s, i)
  {
    var call := s.accepts[i];
    var found := Find(s, call.invitation);
    match Check(found, call.acceptance)
    case None => Finish(s, i)
    case Some(next) => At(s, i, Writing(next, found.value.state))
  }

  /** Storage takes the write: the whole record is replaced. */
  function Land(s: State, i: nat): State
    requires AcceptAt(s, i) && s.accepts[i].stage.Writing?
  {
    var call := s.accepts[i];
    At(s, i, Written(call.stage.previous)).(records := s.records[call.invitation := call.stage.next])
  }

  function Report(call: Accept): Event
    requires call.stage.Written?
  {
    StateUpdated(call.invitation, call.acceptance, call.stage.previous)
  }

  function AfterWrite(s: State, i: nat): State
    requires AcceptAt(s, i) && s.accepts[i].stage.Written?
  {
    Finish(s, i).(events := s.events + [Report(s.accepts[i])])
  }

  // ---------------------------------------------------------------- the state machine

  predicate InFlight(stage: Stage) {
    stage == Reading || stage.Writing? || stage.Written?
  }

  predicate Ready(s: State, a: Action) {
    match a
    case CreateRecord(id, _) => id !in s.created
    case DeleteRecord(_) => true
    case CallAccept(_, _) => true
    case BeginAccept(i) => AcceptAt(s, i) && KeyedQueue.CanBegin(s.queue, i)
    case ReadReturns(i) => AcceptAt(s, i) && s.accepts[i].stage == Reading
    case WriteLands(i) => AcceptAt(s, i) && s.accepts[i].stage.Writing? && s.accepts[i].invitation in s.records
    case WriteReturns(i) => AcceptAt(s, i) && s.accepts[i].stage.Written?
    case AwaitThrows(i) => AcceptAt(s, i) && InFlight(s.accepts[i].stage)
    case CleanUp(i) => KeyedQueue.Enabled(s.queue, KeyedQueue.Leave(i))
    case Restart => true
  }

  /** No write that storage has taken waits for the return of its update. */
  ghost predicate NoneWritten(s: State) {
    forall call :: call in s.accepts ==> !call.stage.Written?
  }

  ghost predicate Enabled(cfg: Config, s: State, a: Action) {
    && Ready(s, a)
    && (a.AwaitThrows? && s.accepts[a.accept].stage.Written? ==> cfg.lateThrows)
    && (a.Restart? ==> cfg.crashes || NoneWritten(s))
  }

  function Step(s: State, a: Action): State
    requires Ready(s, a)
  {
    match a
    case CreateRecord(id, reusable) =>
      s.(records := s.records[id := Record(reusable, Created, [])], created := s.created + {id})
    case DeleteRecord(id) => s.(records := s.records - {id})
    case CallAccept(id, acceptance) =>
      s.(queue := KeyedQueue.EnterRun(s.queue, id), accepts := s.accepts + [Accept(id, acceptance, Chained)])
    case BeginAccept(i) => At(s, i, Reading).(queue := KeyedQueue.BeginRun(s.queue, i))
    case ReadReturns(i) => AfterRead(s, i)
    case WriteLands(i) => Land(s, i)
    case WriteReturns(i) => AfterWrite(s, i)
    case AwaitThrows(i) => Finish(s, i)
    case CleanUp(i) => s.(queue := KeyedQueue.LeaveRun(s.queue, i))
    case Restart => s.(queue := KeyedQueue.EMPTY_QUEUE, accepts := [])
  }

  ghost function Run(cfg: Config, actions: seq<Action>): Option<State> {
    if actions == [] then Some(START)
    else match Run(cfg, actions[..|actions| - 1])
      case None => None
      case Some(s) =>
        var a := actions[|actions| - 1];
        if Enabled(cfg, s, a) then Some(Step(s, a)) else None
  }

  ghost predicate Reachable(cfg: Config, s: State) {
    exists actions :: Run(cfg, actions) == Some(s)
  }

  lemma ReachStep(cfg: Config, s: State, a: Action)
    requires Reachable(cfg, s) && Enabled(cfg, s, a)
    ensures Reachable(cfg, Step(s, a))
  {
    var actions :| Run(cfg, actions) == Some(s);
    assert (actions + [a])[..|actions + [a]| - 1] == actions;
    assert Run(cfg, actions + [a]) == Some(Step(s, a));
  }

  // ---------------------------------------------------------------- the invariant

  predicate StageMatches(stage: Stage, state: KeyedQueue.RunState) {
    match state
    case Waiting => stage == Chained
    case Running => InFlight(stage)
    case Settled => stage == Finished
  }

  ghost predicate Aligned(s: State) {
    && |s.accepts| == |s.queue.runs|
    && forall i :: 0 <= i < |s.accepts| ==>
         s.queue.runs[i].key == s.accepts[i].invitation && StageMatches(s.accepts[i].stage, s.queue.runs[i].state)
  }

  /** What an invitation record promises about its acceptances. */
  ghost predicate RecordOk(record: Record) {
    && (record.state == Accepted <==> record.acceptances != [])
    && (!record.reusable ==> |record.acceptances| <= 1)
    && (forall i, j :: 0 <= i < j < |record.acceptances| && !record.acceptances[i].reused ==>
          record.acceptances[i] != record.acceptances[j])
  }

  /** The reports of one invitation, in order. */
  function ReportsOf(events: seq<Event>, id: string): seq<Event> {
    if events == [] then []
    else
      var rest := ReportsOf(events[..|events| - 1], id);
      var last := events[|events| - 1];
      if last.invitation == id then rest + [last] else rest
  }

  predicate Tells(e: Event, acceptances: seq<Acceptance>, k: int)
    requires 0 <= k < |acceptances|
  {
    acceptances[k] == e.acceptance && (e.previous == Created <==> k == 0)
  }

  /** Each report tells of one acceptance, in order, and names `created` exactly for the first of all. */
  ghost predicate ReportsTell(reports: seq<Event>, acceptances: seq<Acceptance>) {
    reports == [] ||
    exists k :: 0 <= k < |acceptances| && Tells(reports[|reports| - 1], acceptances, k) &&
                ReportsTell(reports[..|reports| - 1], acceptances[..k])
  }

  ghost predicate RecordKept(s: State, id: string)
    requires id in s.records
  {
    && id in s.created && RecordOk(s.records[id])
    && ReportsTell(ReportsOf(s.events, id), s.records[id].acceptances)
  }

  ghost predicate RecordsOk(s: State) {
    && (forall id :: id in s.records ==> RecordKept(s, id))
    && (forall id :: id !in s.created ==> ReportsOf(s.events, id) == [])
  }

  /** The record holds the written acceptance last, and nothing tells of it yet. */
  ghost predicate Landed(s: State, call: Accept)
    requires call.stage.Written? && call.invitation in s.records
  {
    var acceptances := s.records[call.invitation].acceptances;
    && acceptances != []
    && Tells(Report(call), acceptances, |acceptances| - 1)
    && ReportsTell(ReportsOf(s.events, call.invitation), acceptances[..|acceptances| - 1])
  }

  /** A write in flight adds one acceptance to the record as it still is; a landed one is its last. */
  ghost predicate WriteOk(s: State, call: Accept) {
    && (call.stage.Writing? || call.stage.Written? ==> call.invitation in s.created)
    && (call.stage.Writing? && call.invitation in s.records ==>
          && Check(Some(s.records[call.invitation]), call.acceptance) == Some(call.stage.next)
          && call.stage.previous == s.records[call.invitation].state)
    && (call.stage.Written? && call.invitation in s.records ==> Landed(s, call))
  }

  ghost predicate Inv(s: State) {
    && KeyedQueue.Inv(s.queue) && Aligned(s) && RecordsOk(s)
    && forall call :: call in s.accepts ==> WriteOk(s, call)
  }

  /** An acceptance that passes the checks keeps the promises of the record. */
  lemma CheckKeepsRecord(record: Record, a: Acceptance)
    requires RecordOk(record) && Check(Some(record), a).Some?
    ensures RecordOk(Check(Some(record), a).value)
  {
    var next := Check(Some(record), a).value;
    forall i, j | 0 <= i < j < |next.acceptances| && !next.acceptances[i].reused
      ensures next.acceptances[i] != next.acceptances[j]
    {
      assert record.acceptances[i] == Acceptance(a.connection, false) ==> RecordedBefore(record, a.connection);
    }
  }

  function QueueStep(s: State, a: Action): Option<KeyedQueue.Action> {
    match a
    case CallAccept(id, _) => Some(KeyedQueue.Enter(id))
    case BeginAccept(i) => Some(KeyedQueue.Begin(i))
    case ReadReturns(i) =>
      if i < |s.accepts| && Check(Find(s, s.accepts[i].invitation), s.accepts[i].acceptance).None?
      then Some(KeyedQueue.Settle(i)) else None
    case WriteReturns(i) => Some(KeyedQueue.Settle(i))
    case AwaitThrows(i) => Some(KeyedQueue.Settle(i))
    case CleanUp(i) => Some(KeyedQueue.Leave(i))
    case _ => None
  }

  lemma StepIsQueueStep(s: State, a: Action)
    requires Aligned(s) && Ready(s, a) && !a.Restart?
    ensures QueueStep(s, a).None? ==> Step(s, a).queue == s.queue
    ensures QueueStep(s, a).Some? ==>
              && KeyedQueue.Enabled(s.queue, QueueStep(s, a).value)
              && Step(s, a).queue == KeyedQueue.Step(s.queue, QueueStep(s, a).value)
  {
  }

  lemma StepKeepsQueue(s: State, a: Action)
    requires KeyedQueue.Inv(s.queue) && Aligned(s) && Ready(s, a)
    ensures KeyedQueue.Inv(Step(s, a).queue)
  {
    if !a.Restart? {
      StepIsQueueStep(s, a);
      if QueueStep(s, a).Some? {
        KeyedQueue.StepKeepsInv(s.queue, QueueStep(s, a).value);
      }
    }
  }

  lemma StepKeepsAligned(s: State, a: Action)
    requires Aligned(s) && Ready(s, a)
    ensures Aligned(Step(s, a))
  {
  }

  lemma ReportsSnoc(events: seq<Event>, e: Event, id: string)
    ensures ReportsOf(events + [e], id) ==
            if e.invitation == id then ReportsOf(events, id) + [e] else ReportsOf(events, id)
  {
    assert (events + [e])[..|events + [e]| - 1] == events;
  }

  /** One more acceptance leaves the reports what they tell. */
  lemma TellsMore(reports: seq<Event>, acceptances: seq<Acceptance>, a: Acceptance)
    requires ReportsTell(reports, acceptances)
    ensures ReportsTell(reports, acceptances + [a])
  {
    if reports != [] {
      var k :| 0 <= k < |acceptances| && Tells(reports[|reports| - 1], acceptances, k) &&
               ReportsTell(reports[..|reports| - 1], acceptances[..k]);
      assert (acceptances + [a])[..k] == acceptances[..k];
      assert Tells(reports[|reports| - 1], acceptances + [a], k);
    }
  }

  /** The report of the last acceptance. */
  lemma TellsLast(reports: seq<Event>, e: Event, acceptances: seq<Acceptance>)
    requires acceptances != [] && Tells(e, acceptances, |acceptances| - 1)
    requires ReportsTell(reports, acceptances[..|acceptances| - 1])
    ensures ReportsTell(reports + [e], acceptances)
  {
    assert (reports + [e])[..|reports + [e]| - 1] == reports;
  }

  /** While one accept of an invitation is in flight, no other one is. */
  lemma OneAcceptAtATime(s: State, i: nat, j: nat)
    requires KeyedQueue.Inv(s.queue) && Aligned(s)
    requires i < |s.accepts| && j < |s.accepts| && s.accepts[i].invitation == s.accepts[j].invitation
    requires InFlight(s.accepts[i].stage) && InFlight(s.accepts[j].stage)
    ensures i == j
  {
    if i < j {
      KeyedQueue.OneRunPerKey(s.queue, i, j);
    } else if j < i {
      KeyedQueue.OneRunPerKey(s.queue, j, i);
    }
  }

  /** What storage holds after a write has landed. */
  lemma LandKeepsRecords(s: State, i: nat)
    requires RecordsOk(s) && Ready(s, WriteLands(i)) && WriteOk(s, s.accepts[i])
    ensures RecordsOk(Step(s, WriteLands(i)))
    ensures WriteOk(Step(s, WriteLands(i)), Step(s, WriteLands(i)).accepts[i])
  {
    var t := Step(s, WriteLands(i));
    var call := s.accepts[i];
    var id := call.invitation;
    assert RecordKept(s, id);
    CheckKeepsRecord(s.records[id], call.acceptance);
    TellsMore(ReportsOf(s.events, id), s.records[id].acceptances, call.acceptance);
    assert RecordKept(t, id);
    forall other | other in t.records ensures RecordKept(t, other) {
      assert other != id ==> RecordKept(s, other);
    }
    var acceptances := t.records[id].acceptances;
    assert acceptances[..|acceptances| - 1] == s.records[id].acceptances;
  }

  lemma ReturnKeepsRecords(s: State, i: nat)
    requires RecordsOk(s) && Ready(s, WriteReturns(i)) && WriteOk(s, s.accepts[i])
    ensures RecordsOk(Step(s, WriteReturns(i)))
  {
    var t := Step(s, WriteReturns(i));
    var call := s.accepts[i];
    forall id | id in t.records ensures RecordKept(t, id) {
      assert RecordKept(s, id);
      ReportsSnoc(s.events, Report(call), id);
      if id == call.invitation {
        TellsLast(ReportsOf(s.events, id), Report(call), s.records[id].acceptances);
      }
    }
    forall id | id !in t.created ensures ReportsOf(t.events, id) == [] {
      ReportsSnoc(s.events, Report(call), id);
    }
  }

  lemma StepKeepsRecords(s: State, a: Action)
    requires RecordsOk(s) && Ready(s, a)
    requires a.WriteLands? || a.WriteReturns? ==> WriteOk(s, s.accepts[a.accept])
    ensures RecordsOk(Step(s, a))
  {
    if a.WriteLands? {
      LandKeepsRecords(s, a.accept);
    } else if a.WriteReturns? {
      ReturnKeepsRecords(s, a.accept);
    } else {
      var t := Step(s, a);
      assert t.events == s.events;
      forall id | id in t.records ensures RecordKept(t, id) {
        assert id in s.records ==> RecordKept(s, id);
      }
    }
  }

  /** What a write in flight promises is about its own invitation. */
  lemma SameForInvitation(s: State, t: State, call: Accept)
    requires WriteOk(s, call) && t.created == s.created && ReportsOf(t.events, call.invitation) == ReportsOf(s.events, call.invitation)
    requires call.invitation in t.records <==> call.invitation in s.records
    requires call.invitation in t.records ==> t.records[call.invitation] == s.records[call.invitation]
    ensures WriteOk(t, call)
  {
  }

  /** A landing or a report concerns no other accept in flight. */
  lemma OtherInvitation(s: State, i: nat, j: nat)
    requires KeyedQueue.Inv(s.queue) && Aligned(s) && i < |s.accepts| && j < |s.accepts| && j != i
    requires InFlight(s.accepts[i].stage) && InFlight(s.accepts[j].stage)
    ensures s.accepts[j].invitation != s.accepts[i].invitation
  {
    if s.accepts[j].invitation == s.accepts[i].invitation {
      OneAcceptAtATime(s, i, j);
    }
  }

  lemma LandKeepsOtherWrites(s: State, i: nat, j: nat)
    requires Inv(s) && Ready(s, WriteLands(i)) && j < |s.accepts| && j != i
    ensures WriteOk(Step(s, WriteLands(i)), Step(s, WriteLands(i)).accepts[j])
  {
    var call := s.accepts[j];
    assert call in s.accepts && WriteOk(s, call);
    if InFlight(call.stage) {
      OtherInvitation(s, i, j);
      SameForInvitation(s, Step(s, WriteLands(i)), call);
    }
  }

  lemma ReturnKeepsOtherWrites(s: State, i: nat, j: nat)
    requires Inv(s) && Ready(s, WriteReturns(i)) && j < |s.accepts| && j != i
    ensures WriteOk(Step(s, WriteReturns(i)), Step(s, WriteReturns(i)).accepts[j])
  {
    var call := s.accepts[j];
    assert call in s.accepts && WriteOk(s, call);
    if InFlight(call.stage) {
      OtherInvitation(s, i, j);
      ReportsSnoc(s.events, Report(s.accepts[i]), call.invitation);
      SameForInvitation(s, Step(s, WriteReturns(i)), call);
    }
  }

  lemma StepKeepsWrites(s: State, a: Action, j: nat)
    requires Aligned(s) && RecordsOk(s) && Ready(s, a) && j < |Step(s, a).accepts|
    requires !a.WriteLands? && !a.WriteReturns?
    requires forall call :: call in s.accepts ==> WriteOk(s, call)
    ensures WriteOk(Step(s, a), Step(s, a).accepts[j])
  {
    var t := Step(s, a);
    var call := t.accepts[j];
    if (call.stage.Writing? || call.stage.Written?) && !(a.ReadReturns? && a.accept == j) {
      assert s.accepts[j] == call && call in s.accepts;
      assert WriteOk(s, call);
    } else if call.stage.Writing? {
      assert RecordKept(s, call.invitation);
    }
  }

  lemma StepKeepsInv(s: State, a: Action)
    requires Inv(s) && Ready(s, a)
    ensures Inv(Step(s, a))
  {
    StepKeepsQueue(s, a);
    StepKeepsAligned(s, a);
    assert a.WriteLands? || a.WriteReturns? ==> s.accepts[a.accept] in s.accepts;
    StepKeepsRecords(s, a);
    forall call | call in Step(s, a).accepts ensures WriteOk(Step(s, a), call) {
      var j :| 0 <= j < |Step(s, a).accepts| && Step(s, a).accepts[j] == call;
      if !a.WriteLands? && !a.WriteReturns? {
        StepKeepsWrites(s, a, j);
      } else if a.WriteLands? {
        if a.accept != j {
          LandKeepsOtherWrites(s, a.accept, j);
        } else {
          LandKeepsRecords(s, j);
        }
      } else if a.accept != j {
        ReturnKeepsOtherWrites(s, a.accept, j);
      }
    }
  }

  lemma {:induction false} RunKeepsInv(cfg: Config, actions: seq<Action>)
    requires Run(cfg, actions).Some?
    ensures Inv(Run(cfg, actions).value)
  {
    if actions != [] {
      RunKeepsInv(cfg, actions[..|actions| - 1]);
      StepKeepsInv(Run(cfg, actions[..|actions| - 1]).value, actions[|actions| - 1]);
    }
  }

  // ---------------------------------------------------------------- the record

  /**
   * Main result. In every run, whatever fails and whenever the process restarts, a stored record is
   * accepted exactly when it holds an acceptance, a single-use record holds one at most, and no
   * connection is recorded twice without reuse. The reports of the record tell of acceptances it holds,
   * each of one, in order; `created` is named exactly for the first acceptance of the record.
   */
  lemma AcceptancesAreKept(cfg: Config, s: State, id: string)
    requires Reachable(cfg, s) && id in s.records
    ensures RecordOk(s.records[id])
    ensures ReportsTell(ReportsOf(s.events, id), s.records[id].acceptances)
  {
    var actions :| Run(cfg, actions) == Some(s);
    RunKeepsInv(cfg, actions);
    assert RecordKept(s, id);
  }

  /** One step lets the acceptances of a record grow at their end, and forgets no id. */
  lemma StepOnlyGrows(s: State, a: Action, id: string)
    requires Inv(s) && Ready(s, a) && id in s.created
    ensures id in Step(s, a).created
    ensures id in Step(s, a).records ==>
              id in s.records && s.records[id].acceptances <= Step(s, a).records[id].acceptances
  {
    if a.WriteLands? {
      assert s.accepts[a.accept] in s.accepts && WriteOk(s, s.accepts[a.accept]);
    }
  }

  /**
   * The acceptances of a record only grow: of any two moments of a run the earlier list is a prefix of
   * the later one. No concurrent write loses an acceptance, and no deleted record comes back.
   */
  lemma {:induction false} AcceptancesOnlyGrow(cfg: Config, actions: seq<Action>, n: nat, id: string)
    requires n <= |actions| && Run(cfg, actions).Some?
    ensures Run(cfg, actions[..n]).Some?
    ensures id in Run(cfg, actions[..n]).value.created ==> id in Run(cfg, actions).value.created
    ensures id in Run(cfg, actions[..n]).value.created && id in Run(cfg, actions).value.records ==>
              && id in Run(cfg, actions[..n]).value.records
              && Run(cfg, actions[..n]).value.records[id].acceptances <= Run(cfg, actions).value.records[id].acceptances
    decreases |actions|
  {
    if n == |actions| {
      assert actions[..n] == actions;
    } else {
      var before := actions[..|actions| - 1];
      assert before[..n] == actions[..n];
      AcceptancesOnlyGrow(cfg, before, n, id);
      RunKeepsInv(cfg, before);
      if id in Run(cfg, actions[..n]).value.created {
        StepOnlyGrows(Run(cfg, before).value, actions[|actions| - 1], id);
      }
    }
  }

  /** Accepts of one invitation take turns: none reads the record before all earlier ones finished. */
  lemma AcceptsTakeTurns(cfg: Config, s: State, i: nat, j: nat)
    requires Reachable(cfg, s) && i < j < |s.accepts| && s.accepts[i].invitation == s.accepts[j].invitation
    requires s.accepts[j].stage != Chained
    ensures s.accepts[i].stage == Finished
  {
    var actions :| Run(cfg, actions) == Some(s);
    RunKeepsInv(cfg, actions);
    KeyedQueue.OneRunPerKey(s.queue, i, j);
  }

  /**
   * In every run the map has an entry for an invitation exactly while the caller of its latest accept
   * has not cleaned up, so an idle invitation has none; and it loses none that an accept still needs.
   */
  lemma IdleInvitationHasNoEntry(cfg: Config, s: State, id: string)
    requires Reachable(cfg, s)
    ensures id in s.queue.entries <==> exists i :: KeyedQueue.AwaitedLatest(s.queue, id, i)
    ensures id !in s.queue.entries ==>
              forall i :: 0 <= i < |s.accepts| && s.accepts[i].invitation == id ==> s.accepts[i].stage == Finished
  {
    var actions :| Run(cfg, actions) == Some(s);
    RunKeepsInv(cfg, actions);
    KeyedQueue.EntryIffBusy(s.queue, id);
    forall i | 0 <= i < |s.accepts| && s.accepts[i].invitation == id && id !in s.queue.entries
      ensures s.accepts[i].stage == Finished
    {
      assert s.queue.runs[i].key == id;
    }
  }

  // ---------------------------------------------------------------- what is recorded

  /** The list holds an acceptance of the connection that is no reuse. */
  predicate HoldsConnection(acceptances: seq<Acceptance>, connection: string) {
    exists k :: 0 <= k < |acceptances| && acceptances[k].connection == connection && !acceptances[k].reused
  }

  /** The record has room for the acceptance: it is not a second use, nor a repeat of a connection. */
  predicate TakesUp(record: Record, a: Acceptance) {
    (record.reusable || record.state == Created) && (a.reused || !HoldsConnection(record.acceptances, a.connection))
  }

  /**
   * A read of a stored record that has room leads to a write of the record, accepted and with the acceptance
   * at the end of its list. A read of any other record, or of none, ends the accept and changes nothing.
   */
  lemma ReadLeadsToWrite(s: State, i: nat)
    requires AcceptAt(s, i) && s.accepts[i].stage == Reading
    ensures var call, t := s.accepts[i], Step(s, ReadReturns(i));
            && t.records == s.records && t.events == s.events
            && t.accepts[i].stage ==
               if call.invitation in s.records && TakesUp(s.records[call.invitation], call.acceptance) then
                 var r := s.records[call.invitation];
                 Writing(Record(r.reusable, Accepted, r.acceptances + [call.acceptance]), r.state)
               else Finished
  {
    var call := s.accepts[i];
    if call.invitation in s.records {
      var r := s.records[call.invitation];
      if k :| 0 <= k < |r.acceptances| && r.acceptances[k].connection == call.acceptance.connection && !r.acceptances[k].reused {
        assert r.acceptances[k] == Acceptance(call.acceptance.connection, false);
      }
    }
  }

  /** Nothing fails, is deleted or restarts, and an accept is called for a stored record. */
  predicate IsCalm(s: State, a: Action) {
    && !a.AwaitThrows? && !a.Restart? && !a.DeleteRecord?
    && (a.CallAccept? ==> a.id in s.records)
  }

  /** The state after actions that are all calm. */
  ghost function CalmRun(cfg: Config, actions: seq<Action>): Option<State> {
    if actions == [] then Some(START)
    else match CalmRun(cfg, actions[..|actions| - 1])
      case None => None
      case Some(s) =>
        var a := actions[|actions| - 1];
        if Enabled(cfg, s, a) && IsCalm(s, a) then Some(Step(s, a)) else None
  }

  lemma {:induction false} CalmRunIsRun(cfg: Config, actions: seq<Action>)
    requires CalmRun(cfg, actions).Some?
    ensures Run(cfg, actions) == CalmRun(cfg, actions)
  {
    if actions != [] {
      CalmRunIsRun(cfg, actions[..|actions| - 1]);
    }
  }

  /** The acceptance is in the list, or the single-use record holds another one. */
  predicate Recorded(record: Record, a: Acceptance) {
    a in record.acceptances || (!record.reusable && record.acceptances != [])
  }

  /** An accept concerns a stored record, and once it has written or ended it is recorded there. */
  ghost predicate OutcomeOk(s: State, call: Accept) {
    && call.invitation in s.records
    && (call.stage == Finished || call.stage.Written? ==> Recorded(s.records[call.invitation], call.acceptance))
  }

  ghost predicate OutcomesOk(s: State) {
    forall i :: 0 <= i < |s.accepts| ==> OutcomeOk(s, s.accepts[i])
  }

  lemma CalmStepKeepsRecords(s: State, a: Action, id: string)
    requires Inv(s) && Ready(s, a) && IsCalm(s, a) && id in s.records
    ensures id in Step(s, a).records && Step(s, a).records[id].reusable == s.records[id].reusable
    ensures s.records[id].acceptances <= Step(s, a).records[id].acceptances
  {
    assert RecordKept(s, id);
    if a.WriteLands? {
      assert s.accepts[a.accept] in s.accepts && WriteOk(s, s.accepts[a.accept]);
    }
  }

  /** The accept that the step moves. */
  lemma OwnStepRecords(s: State, a: Action)
    requires Inv(s) && OutcomesOk(s) && Ready(s, a) && IsCalm(s, a)
    requires a.BeginAccept? || a.ReadReturns? || a.WriteLands? || a.WriteReturns?
    ensures OutcomeOk(Step(s, a), Step(s, a).accepts[a.accept])
  {
    var call := s.accepts[a.accept];
    assert OutcomeOk(s, call) && call in s.accepts && WriteOk(s, call);
    CalmStepKeepsRecords(s, a, call.invitation);
    assert RecordKept(s, call.invitation);
    if a.ReadReturns? {
      ReadLeadsToWrite(s, a.accept);
      var r := s.records[call.invitation];
      if !call.acceptance.reused && HoldsConnection(r.acceptances, call.acceptance.connection) {
        var k :| 0 <= k < |r.acceptances| && r.acceptances[k].connection == call.acceptance.connection && !r.acceptances[k].reused;
        assert r.acceptances[k] == call.acceptance;
      }
    } else if a.WriteLands? {
      var list := call.stage.next.acceptances;
      assert list[|list| - 1] == call.acceptance;
    }
  }

  lemma CalmStepKeepsOutcomes(s: State, a: Action)
    requires Inv(s) && OutcomesOk(s) && Ready(s, a) && IsCalm(s, a)
    ensures OutcomesOk(Step(s, a))
  {
    var t := Step(s, a);
    forall i | 0 <= i < |t.accepts| ensures OutcomeOk(t, t.accepts[i]) {
      if i < |s.accepts| && t.accepts[i] == s.accepts[i] {
        assert OutcomeOk(s, s.accepts[i]);
        CalmStepKeepsRecords(s, a, s.accepts[i].invitation);
      } else if i < |s.accepts| {
        OwnStepRecords(s, a);
      }
    }
  }

  lemma {:induction false} CalmRunKeepsOutcomes(cfg: Config, actions: seq<Action>)
    requires CalmRun(cfg, actions).Some?
    ensures OutcomesOk(CalmRun(cfg, actions).value)
  {
    if actions != [] {
      var before := actions[..|actions| - 1];
      CalmRunKeepsOutcomes(cfg, before);
      CalmRunIsRun(cfg, before);
      RunKeepsInv(cfg, before);
      CalmStepKeepsOutcomes(CalmRun(cfg, before).value, actions[|actions| - 1]);
    }
  }

  /**
   * Main result, the other half of the promise: nothing that should be recorded is refused. In a run in
   * which nothing fails and nothing is deleted, every accept that has ended is in the list of its record,
   * or the record is single-use and holds another acceptance.
   */
  lemma EveryAcceptIsRecorded(cfg: Config, actions: seq<Action>, i: nat)
    requires CalmRun(cfg, actions).Some? && i < |CalmRun(cfg, actions).value.accepts|
    requires CalmRun(cfg, actions).value.accepts[i].stage == Finished
    ensures var s := CalmRun(cfg, actions).value;
            var call := s.accepts[i];
            && call.invitation in s.records
            && (call.acceptance in s.records[call.invitation].acceptances
                || (!s.records[call.invitation].reusable && |s.records[call.invitation].acceptances| == 1))
  {
    CalmRunKeepsOutcomes(cfg, actions);
    CalmRunIsRun(cfg, actions);
    RunKeepsInv(cfg, actions);
    var s := CalmRun(cfg, actions).value;
    assert OutcomeOk(s, s.accepts[i]);
    assert RecordKept(s, s.accepts[i].invitation);
  }

  // ---------------------------------------------------------------- the reports

  /** The acceptances that were reported for an invitation, in order. */
  function Reported(events: seq<Event>, id: string): seq<Acceptance> {
    if events == [] then []
    else
      var rest := Reported(events[..|events| - 1], id);
      var last := events[|events| - 1];
      if last.invitation == id then rest + [last.acceptance] else rest
  }

  /** No landed write of the invitation waits for the return of its update. */
  ghost predicate Quiet(s: State, id: string) {
    forall call :: call in s.accepts && call.invitation == id ==> !call.stage.Written?
  }

  /** What a record holds has been reported, but for the write whose update has not returned yet. */
  ghost predicate AllReported(s: State) {
    forall id :: id in s.records && Quiet(s, id) ==> s.records[id].acceptances == Reported(s.events, id)
  }

  predicate FirstNamesCreated(events: seq<Event>, n: nat)
    requires n < |events|
  {
    events[n].previous == Created <==> Reported(events[..n], events[n].invitation) == []
  }

  /** The first report of an invitation, and no other, names `created`. */
  ghost predicate FirstReports(events: seq<Event>) {
    forall n: nat :: n < |events| ==> FirstNamesCreated(events, n)
  }

  /** A landed write is all that the reports still miss. */
  ghost predicate AwaitOk(s: State, call: Accept) {
    call.stage.Written? ==>
      && (call.stage.previous == Created <==> Reported(s.events, call.invitation) == [])
      && (call.invitation in s.records ==>
            s.records[call.invitation].acceptances == Reported(s.events, call.invitation) + [call.acceptance])
  }

  ghost predicate ReportsOk(s: State) {
    && AllReported(s) && FirstReports(s.events)
    && (forall call :: call in s.accepts ==> AwaitOk(s, call))
    && (forall id :: id !in s.created ==> Reported(s.events, id) == [])
  }

  lemma ReportedSnoc(events: seq<Event>, e: Event, id: string)
    ensures Reported(events + [e], id) ==
            if e.invitation == id then Reported(events, id) + [e.acceptance] else Reported(events, id)
  {
    assert (events + [e])[..|events + [e]| - 1] == events;
  }

  lemma FirstReportsSnoc(events: seq<Event>, e: Event)
    requires FirstReports(events) && (e.previous == Created <==> Reported(events, e.invitation) == [])
    ensures FirstReports(events + [e])
  {
    var more := events + [e];
    assert more[..|events|] == events;
    forall n: nat | n < |more| ensures FirstNamesCreated(more, n) {
      if n < |events| {
        assert FirstNamesCreated(events, n) && more[..n] == events[..n];
      }
    }
  }

  /** An invitation with one accept in flight, before its write lands, is quiet. */
  lemma QuietBeforeLanding(s: State, i: nat)
    requires KeyedQueue.Inv(s.queue) && Aligned(s) && i < |s.accepts| && s.accepts[i].stage.Writing?
    ensures Quiet(s, s.accepts[i].invitation)
  {
    forall call | call in s.accepts && call.invitation == s.accepts[i].invitation ensures !call.stage.Written? {
      var j :| 0 <= j < |s.accepts| && s.accepts[j] == call;
      if InFlight(call.stage) {
        OneAcceptAtATime(s, i, j);
      }
    }
  }

  /** A step of one accept does not change who waits on another invitation. */
  lemma QuietElsewhere(s: State, t: State, i: nat, id: string)
    requires i < |s.accepts| == |t.accepts| && t.accepts == s.accepts[i := t.accepts[i]]
    requires s.accepts[i].invitation == t.accepts[i].invitation != id
    requires Quiet(t, id)
    ensures Quiet(s, id)
  {
    forall call | call in s.accepts && call.invitation == id ensures !call.stage.Written? {
      var j :| 0 <= j < |s.accepts| && s.accepts[j] == call;
      assert t.accepts[j] == call && call in t.accepts;
    }
  }

  lemma LandKeepsReports(s: State, i: nat)
    requires Inv(s) && ReportsOk(s) && Ready(s, WriteLands(i))
    ensures ReportsOk(Step(s, WriteLands(i)))
  {
    var t := Step(s, WriteLands(i));
    var call := s.accepts[i];
    assert call in s.accepts && WriteOk(s, call) && RecordKept(s, call.invitation);
    QuietBeforeLanding(s, i);
    assert t.accepts[i] in t.accepts;
    assert AwaitOk(t, t.accepts[i]);
    forall other | other in t.accepts ensures AwaitOk(t, other) {
      var j :| 0 <= j < |t.accepts| && t.accepts[j] == other;
      if j != i {
        assert other == s.accepts[j] && other in s.accepts && AwaitOk(s, other);
        assert other.invitation == call.invitation ==> !other.stage.Written?;
      }
    }
    forall id | id in t.records && Quiet(t, id) ensures t.records[id].acceptances == Reported(t.events, id) {
      assert id != call.invitation;
      QuietElsewhere(s, t, i, id);
    }
  }

  lemma ReturnKeepsReports(s: State, i: nat)
    requires Inv(s) && ReportsOk(s) && Ready(s, WriteReturns(i))
    ensures ReportsOk(Step(s, WriteReturns(i)))
  {
    var t := Step(s, WriteReturns(i));
    var call := s.accepts[i];
    assert call in s.accepts && AwaitOk(s, call) && WriteOk(s, call);
    FirstReportsSnoc(s.events, Report(call));
    forall other | other in t.accepts ensures AwaitOk(t, other) {
      var j :| 0 <= j < |t.accepts| && t.accepts[j] == other;
      ReportedSnoc(s.events, Report(call), other.invitation);
      if j != i {
        assert other == s.accepts[j] && other in s.accepts && AwaitOk(s, other);
        if other.stage.Written? && other.invitation == call.invitation {
          OneAcceptAtATime(s, i, j);
        }
      }
    }
    forall id | id in t.records && Quiet(t, id) ensures t.records[id].acceptances == Reported(t.events, id) {
      ReportedSnoc(s.events, Report(call), id);
      if id != call.invitation {
        QuietElsewhere(s, t, i, id);
      }
    }
    forall id | id !in t.created ensures Reported(t.events, id) == [] {
      ReportedSnoc(s.events, Report(call), id);
    }
  }

  lemma WrittenStays(s: State, a: Action, call: Accept)
    requires Aligned(s) && Enabled(Config(false, false), s, a) && !a.WriteReturns? && call in s.accepts && call.stage.Written?
    ensures call in Step(s, a).accepts
  {
    var j :| 0 <= j < |s.accepts| && s.accepts[j] == call;
    assert a.Restart? || Step(s, a).accepts[j] == call;
  }

  /** The other steps report nothing, and lose no report as long as no landed write is given up. */
  lemma OtherStepKeepsReports(s: State, a: Action)
    requires Inv(s) && ReportsOk(s) && Enabled(Config(false, false), s, a) && !a.WriteLands? && !a.WriteReturns?
    ensures ReportsOk(Step(s, a))
  {
    var t := Step(s, a);
    assert t.events == s.events;
    forall call | call in t.accepts && call.stage.Written? ensures call in s.accepts && AwaitOk(t, call) {
      var j :| 0 <= j < |t.accepts| && t.accepts[j] == call;
      assert s.accepts[j] == call;
      assert AwaitOk(s, call) && WriteOk(s, call);
    }
    forall id | id in t.records && Quiet(t, id) ensures t.records[id].acceptances == Reported(t.events, id) {
      forall call | call in s.accepts && call.stage.Written? ensures call in t.accepts {
        WrittenStays(s, a, call);
      }
    }
  }

  lemma {:induction false} RunKeepsReports(cfg: Config, actions: seq<Action>)
    requires !cfg.lateThrows && !cfg.crashes && Run(cfg, actions).Some?
    ensures ReportsOk(Run(cfg, actions).value)
  {
    if actions != [] {
      var a := actions[|actions| - 1];
      var s := Run(cfg, actions[..|actions| - 1]).value;
      RunKeepsReports(cfg, actions[..|actions| - 1]);
      RunKeepsInv(cfg, actions[..|actions| - 1]);
      if a.WriteLands? {
        LandKeepsReports(s, a.accept);
      } else if a.WriteReturns? {
        ReturnKeepsReports(s, a.accept);
      } else {
        OtherStepKeepsReports(s, a);
      }
    }
  }

  /** An accept of a reusable invitation, called while nothing else is in flight, up to its landed write. */
  lemma AcceptUpToLanding(cfg: Config, s: State, id: string, a: Acceptance) returns (t: State)
    requires Reachable(cfg, s) && id in s.records && s.records[id].reusable && a.reused
    requires id !in s.queue.entries && |s.accepts| == |s.queue.runs|
    ensures Reachable(cfg, t)
    ensures t.accepts == s.accepts + [Accept(id, a, Written(s.records[id].state))] && t.events == s.events
    ensures t.records == s.records[id := Record(true, Accepted, s.records[id].acceptances + [a])]
    ensures t.queue.runs == s.queue.runs + [KeyedQueue.Run(id, None, KeyedQueue.Running, false)]
    ensures t.queue.entries == s.queue.entries[id := |s.accepts|]
  {
    var i := |s.accepts|;
    ReachStep(cfg, s, CallAccept(id, a));
    var called := Step(s, CallAccept(id, a));
    ReachStep(cfg, called, BeginAccept(i));
    var begun := Step(called, BeginAccept(i));
    ReachStep(cfg, begun, ReadReturns(i));
    var read := Step(begun, ReadReturns(i));
    assert read.accepts[i].stage.Writing?;
    ReachStep(cfg, read, WriteLands(i));
    t := Step(read, WriteLands(i));
  }

  /** A landed write is given up: its update throws after all, or the process restarts. */
  lemma WriteGivenUp(cfg: Config, id: string) returns (s: State)
    requires cfg.lateThrows || cfg.crashes
    ensures Reachable(cfg, s) && s.events == [] && |s.accepts| == |s.queue.runs| && id !in s.queue.entries
    ensures s.records == map[id := Record(true, Accepted, [Acceptance("a", true)])]
    ensures NoneWritten(s)
  {
    assert Run(cfg, []) == Some(START);
    ReachStep(cfg, START, CreateRecord(id, true));
    var s1 := Step(START, CreateRecord(id, true));
    assert s1.records == map[id := Record(true, Created, [])];
    assert [] + [Acceptance("a", true)] == [Acceptance("a", true)];
    var s2 := AcceptUpToLanding(cfg, s1, id, Acceptance("a", true));
    if cfg.crashes {
      ReachStep(cfg, s2, Restart);
      s := Step(s2, Restart);
    } else {
      ReachStep(cfg, s2, AwaitThrows(0));
      var s3 := Step(s2, AwaitThrows(0));
      ReachStep(cfg, s3, CleanUp(0));
      s := Step(s3, CleanUp(0));
    }
  }

  /**
   * An acceptance that is stored and never reported. The next one of the same invitation is the first
   * that is reported, as a change from `accepted`.
   */
  lemma GivenUpWriteIsNotReported(cfg: Config) returns (s: State, t: State)
    requires cfg.lateThrows || cfg.crashes
    ensures Reachable(cfg, s) && !AllReported(s)
    ensures Reachable(cfg, t) && !FirstReports(t.events)
  {
    s := WriteGivenUp(cfg, "i");
    assert Quiet(s, "i") && Reported(s.events, "i") == [];
    var u := AcceptUpToLanding(cfg, s, "i", Acceptance("b", true));
    var i := |s.accepts|;
    ReachStep(cfg, u, WriteReturns(i));
    t := Step(u, WriteReturns(i));
    assert t.events == [StateUpdated("i", Acceptance("b", true), Accepted)];
    assert !FirstNamesCreated(t.events, 0);
  }

  /**
   * Main result. A record holds precisely the reported acceptances, in order, and the first report of an
   * invitation and no other names `created`: in every run exactly when an update that storage took
   * neither throws nor is cut off by a restart.
   */
  lemma EveryAcceptanceIsReportedIff(cfg: Config)
    ensures (forall s :: Reachable(cfg, s) ==> AllReported(s)) <==> !cfg.lateThrows && !cfg.crashes
    ensures (forall s :: Reachable(cfg, s) ==> FirstReports(s.events)) <==> !cfg.lateThrows && !cfg.crashes
  {
    if cfg.lateThrows || cfg.crashes {
      var s, t := GivenUpWriteIsNotReported(cfg);
    } else {
      forall s | Reachable(cfg, s) ensures AllReported(s) && FirstReports(s.events) {
        var actions :| Run(cfg, actions) == Some(s);
        RunKeepsReports(cfg, actions);
      }
    }
  }

  // ---------------------------------------------------------------- the handlers

  class InvitationEvents {
    var records: map<string, Record>
    var created: set<string>
    var runs: seq<KeyedQueue.Run>
    var acceptingInvitation: map<string, nat>
    var accepts: seq<Accept>
    var events: seq<Event>

    constructor ()
      ensures View() == START && Inv(View())
    {
      records, created, runs, acceptingInvitation, accepts, events := map[], {}, [], map[], [], [];
    }

    function View(): State
      reads this
    {
      State(records, created, KeyedQueue.Queue(runs, acceptingInvitation), accepts, events)
    }

    /** `accept`, up to its `await run`. */
    method AcceptInvitation(id: string, acceptance: Acceptance)
      requires Inv(View())
      modifies this
      ensures View() == Step(old(View()), CallAccept(id, acceptance)) && Inv(View())
    {
      StepKeepsInv(View(), CallAccept(id, acceptance));
      var previous := None;
      if id in acceptingInvitation {
        previous := Some(acceptingInvitation[id]);
      }
      acceptingInvitation := acceptingInvitation[id := |runs|];
      runs := runs + [KeyedQueue.Run(id, previous, KeyedQueue.Waiting, false)];
      accepts := accepts + [Accept(id, acceptance, Chained)];
    }

    /** `accept`, after its `await run`. */
    method OnSettled(run: nat)
      requires Inv(View()) && Ready(View(), CleanUp(run))
      modifies this
      ensures View() == Step(old(View()), CleanUp(run)) && Inv(View())
    {
      StepKeepsInv(View(), CleanUp(run));
      var id := runs[run].key;
      if id in acceptingInvitation && acceptingInvitation[id] == run {
        acceptingInvitation := acceptingInvitation - {id};
      }
      runs := runs[run := runs[run].(left := true)];
    }

    /** The run of an accept resolves. */
    method Resolve(run: nat)
      requires AcceptAt(View(), run)
      modifies this`runs, this`accepts
      ensures View() == Finish(old(View()), run)
    {
      runs := runs[run := runs[run].(state := KeyedQueue.Settled)];
      accepts := accepts[run := accepts[run].(stage := Finished)];
    }

    /** `recordAcceptance`, from the read of the record to its update. */
    method OnRead(run: nat)
      requires Inv(View()) && Ready(View(), ReadReturns(run))
      modifies this
      ensures View() == Step(old(View()), ReadReturns(run)) && Inv(View())
    {
      StepKeepsInv(View(), ReadReturns(run));
      var call := accepts[run];
      if call.invitation !in records {
        Resolve(run);
        return;
      }
      var record := records[call.invitation];
      var recorded := RecordedBefore(record, call.acceptance.connection);
      if !call.acceptance.reused && recorded {
        Resolve(run);
        return;
      }
      if !record.reusable && record.state == Accepted {
        Resolve(run);
        return;
      }
      var previousState := record.state;
      record := record.(state := Accepted);
      record := record.(acceptances := record.acceptances + [call.acceptance]);
      accepts := accepts[run := call.(stage := Writing(record, previousState))];
    }

    /** Storage takes the update of a record that still exists. */
    method TakeUpdate(run: nat)
      requires Inv(View()) && Ready(View(), WriteLands(run))
      modifies this
      ensures View() == Step(old(View()), WriteLands(run)) && Inv(View())
    {
      StepKeepsInv(View(), WriteLands(run));
      var call := accepts[run];
      records := records[call.invitation := call.stage.next];
      accepts := accepts[run := call.(stage := Written(call.stage.previous))];
    }

    /** The update has returned: the acceptance is reported and the run resolves. */
    method OnWritten(run: nat)
      requires Inv(View()) && Ready(View(), WriteReturns(run))
      modifies this
      ensures View() == Step(old(View()), WriteReturns(run)) && Inv(View())
    {
      StepKeepsInv(View(), WriteReturns(run));
      var call := accepts[run];
      events := events + [StateUpdated(call.invitation, call.acceptance, call.stage.previous)];
      Resolve(run);
    }
  }
}
