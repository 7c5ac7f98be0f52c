/**
 * The synchronisation does not give up: a running client without a socket has its reconnect timer set,
 * and from every reachable state a run of reconnect, acknowledgement, pages and tasks deals with every
 * processable event of the log. A failed live event is one of them.
 *
 * Models the recovery paths of packages/agent-sdk/src/blockchain/IndexerWebSocketService.ts on the state
 * machine of IndexerProtocol.
 */
module IndexerRecovery {
  import opened Options
  import opened IndexerSync
  import opened VeranaHelpers
  import opened RestCatchUp
  import opened IndexerProtocol
  import IndexerSafety
  import opened IndexerInvariant
  import IndexerGapFreedom

  // ---------------------------------------------------------------- the timer

  /** The process was started and has not been stopped. */
  predicate Serving(c: Client) {
    !c.stopped && c.generation > 0
  }

  /** A client that serves without a socket has its reconnect timer set; a stopped one has neither. */
  predicate TimerOk(c: Client) {
    && (Serving(c) && c.socket != Open ==> c.reconnectTimer)
    && (c.stopped ==> !c.reconnectTimer && c.socket != Open)
  }

  lemma {:induction false} BlockKeepsTimer(c: Client, events: seq<Event>)
    requires TimerOk(c)
    ensures TimerOk(HandleBlock(c, events))
    decreases |events|
  {
    if events != [] && IsProcessable(events[0]) {
      if !c.syncing {
        BlockKeepsTimer(EnqueueLive(c, events[0]), events[1..]);
      } else if |c.syncBuffer| < MAX_SYNC_BUFFER {
        BlockKeepsTimer(c.(syncBuffer := c.syncBuffer + [events[0]]), events[1..]);
      }
    } else if events != [] {
      BlockKeepsTimer(c, events[1..]);
    }
  }

  predicate IsTaskStep(a: Action) {
    a.TaskStarts? || a.TaskLoads? || a.TaskFetches? || a.TaskSaves? || a.TaskEnds? || a.TaskFails?
  }

  lemma TaskKeepsTimer(cfg: Config, s: State, a: Action, t: State)
    requires TimerOk(s.client) && Step(cfg, s, a) == Some(t) && IsTaskStep(a)
    ensures TimerOk(t.client)
  {
  }

  lemma SessionKeepsTimer(cfg: Config, s: State, a: Action, t: State)
    requires TimerOk(s.client) && Step(cfg, s, a) == Some(t) && !IsTaskStep(a) && !a.Deliver?
    ensures TimerOk(t.client)
  {
  }

  lemma StepKeepsTimer(cfg: Config, s: State, a: Action, t: State)
    requires TimerOk(s.client) && Step(cfg, s, a) == Some(t)
    ensures TimerOk(t.client)
  {
    if IsTaskStep(a) {
      TaskKeepsTimer(cfg, s, a, t);
    } else if !a.Deliver? {
      SessionKeepsTimer(cfg, s, a, t);
    } else {
      var sub := s.subscription.value;
      BlockKeepsTimer(s.client, s.log[sub.next..sub.next + a.count]);
    }
  }

  lemma {:induction false} RunKeepsTimer(cfg: Config, actions: seq<Action>)
    ensures Run(cfg, actions).Some? ==> TimerOk(Run(cfg, actions).value.client)
  {
    if actions != [] {
      var before := actions[..|actions| - 1];
      RunKeepsTimer(cfg, before);
      if Run(cfg, actions).Some? {
        StepKeepsTimer(cfg, Run(cfg, before).value, actions[|actions| - 1], Run(cfg, actions).value);
      }
    }
  }

  /**
   * Main result. In every reachable state, for any indexer: a client that was started, is not stopped and
   * has given up its socket or lost it has a reconnect timer pending.
   */
  lemma LostSocketHasTimer(cfg: Config, s: State)
    requires Reachable(cfg, s) && !s.client.stopped && s.client.generation > 0 && s.client.socket != Open
    ensures s.client.reconnectTimer
  {
    var actions :| Run(cfg, actions) == Some(s);
    RunKeepsTimer(cfg, actions);
  }

  // ---------------------------------------------------------------- the reported status

  predicate CatchesUp(c: Connection) {
    c.LoadCursor? || c.AwaitPage? || c.InPage? || c.CatchUpFailed?
  }

  /** The phase of a serving client is that of its session, as long as the session has its socket. */
  predicate StatusOk(c: Client) {
    && (c.phase == Synced ==> c.everSynced)
    && (!c.stopped && c.phase == Synced ==> c.connection == Finished)
    && (!c.stopped && c.phase == CatchingUp ==> CatchesUp(c.connection))
    && (!c.stopped && c.socket == Open && c.connection == Finished ==> c.phase == Synced)
    && (!c.stopped && c.socket == Open && CatchesUp(c.connection) ==> c.phase == CatchingUp)
  }

  lemma {:induction false} BlockKeepsStatus(c: Client, events: seq<Event>)
    requires StatusOk(c)
    ensures StatusOk(HandleBlock(c, events))
    decreases |events|
  {
    if events != [] && IsProcessable(events[0]) {
      if !c.syncing {
        BlockKeepsStatus(EnqueueLive(c, events[0]), events[1..]);
      } else if |c.syncBuffer| < MAX_SYNC_BUFFER {
        BlockKeepsStatus(c.(syncBuffer := c.syncBuffer + [events[0]]), events[1..]);
      }
    } else if events != [] {
      BlockKeepsStatus(c, events[1..]);
    }
  }

  /** A task that is awaited or failed belongs to the page in progress, or concerns no session. */
  lemma TaskKeepsStatus(cfg: Config, s: State, a: Action, t: State)
    requires ClientOk(s.client) && StatusOk(s.client) && Step(cfg, s, a) == Some(t)
    requires a.TaskStarts? || a.TaskLoads? || a.TaskFetches? || a.TaskSaves? || a.TaskEnds?
    ensures StatusOk(t.client)
  {
  }

  lemma FailureKeepsStatus(cfg: Config, s: State, t: State)
    requires ClientOk(s.client) && StatusOk(s.client) && Step(cfg, s, TaskFails) == Some(t)
    ensures StatusOk(t.client)
  {
  }

  lemma CatchUpKeepsStatus(cfg: Config, s: State, a: Action, t: State)
    requires StatusOk(s.client) && Step(cfg, s, a) == Some(t)
    requires a.CursorLoaded? || a.PageRead? || a.PageFails? || a.NextEvent? || a.PageDone? || a.ReportCatchUpFailure?
    ensures StatusOk(t.client)
  {
  }

  lemma SessionKeepsStatus(cfg: Config, s: State, a: Action, t: State)
    requires StatusOk(s.client) && Step(cfg, s, a) == Some(t) && !IsTaskStep(a) && !a.Deliver?
    ensures StatusOk(t.client)
  {
    if a.CursorLoaded? || a.PageRead? || a.PageFails? || a.NextEvent? || a.PageDone? || a.ReportCatchUpFailure? {
      CatchUpKeepsStatus(cfg, s, a, t);
    }
  }

  lemma StepKeepsStatus(cfg: Config, s: State, a: Action, t: State)
    requires ClientOk(s.client) && StatusOk(s.client) && Step(cfg, s, a) == Some(t)
    ensures StatusOk(t.client)
  {
    if a.TaskFails? {
      FailureKeepsStatus(cfg, s, t);
    } else if IsTaskStep(a) {
      TaskKeepsStatus(cfg, s, a, t);
    } else if !a.Deliver? {
      SessionKeepsStatus(cfg, s, a, t);
    } else {
      var sub := s.subscription.value;
      BlockKeepsStatus(s.client, s.log[sub.next..sub.next + a.count]);
    }
  }

  lemma {:induction false} RunKeepsStatus(cfg: Config, actions: seq<Action>)
    requires ValidConfig(cfg) && Cooperative(cfg)
    ensures Run(cfg, actions).Some? ==> StatusOk(Run(cfg, actions).value.client)
  {
    if actions != [] {
      var before := actions[..|actions| - 1];
      RunKeepsStatus(cfg, before);
      IndexerGapFreedom.RunKeepsInv(cfg, before);
      if Run(cfg, actions).Some? {
        StepKeepsStatus(cfg, Run(cfg, before).value, actions[|actions| - 1], Run(cfg, actions).value);
      }
    }
  }

  /** `syncStatus`. */
  datatype SyncStatus = IsCatchingUp | IsSynced | IsDisconnected | NeverSynced

  function StatusOf(c: Client): SyncStatus {
    if c.phase == CatchingUp then IsCatchingUp
    else if c.phase == Synced then IsSynced
    else if c.everSynced then IsDisconnected
    else NeverSynced
  }

  /**
   * With a cooperative indexer, in every reachable state the status of a client with an open socket tells
   * how far its session is: synced exactly when its catch-up has finished, catching up exactly while that
   * is on its way.
   */
  lemma StatusIsTrue(cfg: Config, s: State)
    requires ValidConfig(cfg) && Cooperative(cfg) && Reachable(cfg, s) && !s.client.stopped && s.client.socket == Open
    ensures StatusOf(s.client) == IsSynced <==> s.client.connection == Finished
    ensures StatusOf(s.client) == IsCatchingUp <==> CatchesUp(s.client.connection)
    ensures StatusOf(s.client) == NeverSynced ==> !s.client.everSynced
  {
    var actions :| Run(cfg, actions) == Some(s);
    RunKeepsStatus(cfg, actions);
  }

  /** Whatever a block message does to the socket, it leaves the phase, or the client gives its session up. */
  lemma {:induction false} BlockReportsLoss(c: Client, events: seq<Event>)
    ensures var d := HandleBlock(c, events);
            && d.everSynced == c.everSynced && d.stopped == c.stopped
            && ((d.socket == c.socket && d.phase == c.phase) || (d.socket == NoSocket && d.phase == Connecting))
    decreases |events|
  {
    if events != [] && IsProcessable(events[0]) {
      if !c.syncing {
        BlockReportsLoss(EnqueueLive(c, events[0]), events[1..]);
      } else if |c.syncBuffer| < MAX_SYNC_BUFFER {
        BlockReportsLoss(c.(syncBuffer := c.syncBuffer + [events[0]]), events[1..]);
      }
    } else if events != [] {
      BlockReportsLoss(c, events[1..]);
    }
  }

  lemma WorkKeepsSocket(cfg: Config, s: State, a: Action, t: State)
    requires Step(cfg, s, a) == Some(t) && (a.TaskLoads? || a.TaskFetches? || a.TaskSaves?)
    ensures t.client.socket == s.client.socket
  {
  }

  lemma TaskKeepsSocket(cfg: Config, s: State, a: Action, t: State)
    requires Step(cfg, s, a) == Some(t) && IsTaskStep(a) && !a.TaskFails?
    ensures t.client.socket == s.client.socket
  {
    if !a.TaskStarts? && !a.TaskEnds? {
      WorkKeepsSocket(cfg, s, a, t);
    }
  }

  lemma FailureReportsLoss(cfg: Config, s: State, t: State)
    requires Step(cfg, s, TaskFails) == Some(t)
    requires s.client.socket == Open && t.client.socket != Open
    ensures StatusOf(t.client) == if s.client.everSynced then IsDisconnected else NeverSynced
  {
  }

  /**
   * A step in which a running client loses its socket, for whatever reason, is reported at once: the status
   * is then disconnected if it was ever synced, and never synced otherwise.
   */
  lemma LossIsReported(cfg: Config, s: State, a: Action, t: State)
    requires Step(cfg, s, a) == Some(t) && !a.RestartProcess?
    requires s.client.socket == Open && t.client.socket != Open && !t.client.stopped
    ensures StatusOf(t.client) == if s.client.everSynced then IsDisconnected else NeverSynced
  {
    if a.TaskFails? {
      FailureReportsLoss(cfg, s, t);
    } else if IsTaskStep(a) {
      TaskKeepsSocket(cfg, s, a, t);
    } else if a.Deliver? {
      var sub := s.subscription.value;
      BlockReportsLoss(s.client, s.log[sub.next..sub.next + a.count]);
    }
  }

  // ---------------------------------------------------------------- continuations

  /** The state after further actions. */
  ghost function RunFrom(cfg: Config, s: State, actions: seq<Action>): Option<State>
    decreases |actions|
  {
    if actions == [] then Some(s)
    else match Step(cfg, s, actions[0])
      case None => None
      case Some(t) => RunFrom(cfg, t, actions[1..])
  }

  /** The steps of a reconnect, a catch-up and its tasks, none of which fails. */
  predicate Recovers(a: Action) {
    || a.ReconnectTimer? || a.Activate? || a.Acknowledged? || a.CursorLoaded? || a.PageRead? || a.NextEvent?
    || a.PageDone? || a.TaskStarts? || a.TaskLoads? || a.TaskFetches? || a.TaskSaves? || a.TaskEnds?
  }

  ghost predicate AllRecover(actions: seq<Action>) {
    forall i :: 0 <= i < |actions| ==> Recovers(actions[i])
  }

  /** Recovery steps lead from `s` to `t`. */
  ghost predicate Leads(cfg: Config, s: State, t: State) {
    exists actions :: AllRecover(actions) && RunFrom(cfg, s, actions) == Some(t)
  }

  lemma {:induction false} RunFromConcat(cfg: Config, s: State, a: seq<Action>, b: seq<Action>)
    requires RunFrom(cfg, s, a).Some?
    ensures RunFrom(cfg, s, a + b) == RunFrom(cfg, RunFrom(cfg, s, a).value, b)
    decreases |a|
  {
    if a == [] {
      assert a + b == b;
    } else {
      assert (a + b)[1..] == a[1..] + b;
      RunFromConcat(cfg, Step(cfg, s, a[0]).value, a[1..], b);
    }
  }

  lemma LeadsOn(cfg: Config, s: State, t: State, u: State)
    requires Leads(cfg, s, t) && Leads(cfg, t, u)
    ensures Leads(cfg, s, u)
  {
    var a :| AllRecover(a) && RunFrom(cfg, s, a) == Some(t);
    var b :| AllRecover(b) && RunFrom(cfg, t, b) == Some(u);
    RunFromConcat(cfg, s, a, b);
    assert AllRecover(a + b);
  }

  lemma LeadsStay(cfg: Config, s: State)
    ensures Leads(cfg, s, s)
  {
    assert AllRecover([]) && RunFrom(cfg, s, []) == Some(s);
  }

  lemma LeadsStep(cfg: Config, s: State, a: Action, t: State)
    requires Recovers(a) && Step(cfg, s, a) == Some(t)
    ensures Leads(cfg, s, t)
  {
    assert [a][1..] == [];
    assert AllRecover([a]) && RunFrom(cfg, s, [a]) == Some(t);
  }

  /** One more recovery step at the end. */
  lemma LeadsThen(cfg: Config, s: State, t: State, a: Action, u: State)
    requires Leads(cfg, s, t) && Recovers(a) && Step(cfg, t, a) == Some(u)
    ensures Leads(cfg, s, u)
  {
    LeadsStep(cfg, t, a, u);
    LeadsOn(cfg, s, t, u);
  }

  lemma {:induction false} RunFromReaches(cfg: Config, s: State, actions: seq<Action>)
    requires Reachable(cfg, s) && RunFrom(cfg, s, actions).Some?
    ensures Reachable(cfg, RunFrom(cfg, s, actions).value)
    decreases |actions|
  {
    if actions != [] {
      var before :| Run(cfg, before) == Some(s);
      var a := actions[0];
      assert (before + [a])[..|before + [a]| - 1] == before;
      assert Run(cfg, before + [a]) == Step(cfg, s, a);
      RunFromReaches(cfg, Step(cfg, s, a).value, actions[1..]);
    }
  }

  lemma LeadsReaches(cfg: Config, s: State, t: State)
    requires Reachable(cfg, s) && Leads(cfg, s, t)
    ensures Reachable(cfg, t)
  {
    var actions :| AllRecover(actions) && RunFrom(cfg, s, actions) == Some(t);
    RunFromReaches(cfg, s, actions);
  }

  // ---------------------------------------------------------------- one task

  /** How many steps a task is from its end. */
  function Rank(stage: Stage): nat {
    match stage
    case Loading => 3
    case Fetching(_) => 2
    case Applying(_) => 1
    case Saved => 0
  }

  /** `t` differs from `s` in the client, the checkpoint and the history alone. */
  predicate SameServer(s: State, t: State) {
    t.log == s.log && t.subscription == s.subscription && t.readTo == s.readTo && t.epoch == s.epoch
  }

  /** The same client with its task at a later stage. */
  predicate Further(c: Client, d: Client)
    requires c.running.Some?
  {
    && d == c.(running := d.running) && d.running.Some? && d.running.value.task == c.running.value.task
    && Rank(d.running.value.stage) < Rank(c.running.value.stage)
  }

  /** The next step of the running task. */
  function NextOf(stage: Stage): Action {
    match stage
    case Loading => TaskLoads
    case Fetching(_) => TaskFetches
    case Applying(_) => TaskSaves
    case Saved => TaskEnds
  }

  lemma TaskMoves(cfg: Config, s: State) returns (t: State)
    requires s.client.running.Some?
    ensures Leads(cfg, s, t) && SameServer(s, t)
    ensures t.client == TaskReturns(s.client, s.client.running.value.task) || Further(s.client, t.client)
  {
    var a := NextOf(s.client.running.value.stage);
    t := Step(cfg, s, a).value;
    LeadsStep(cfg, s, a, t);
  }

  /** A task that has started runs to its end. */
  lemma {:induction false} TaskCompletes(cfg: Config, s: State) returns (t: State)
    requires s.client.running.Some?
    ensures Leads(cfg, s, t) && SameServer(s, t) && t.client == TaskReturns(s.client, s.client.running.value.task)
    decreases Rank(s.client.running.value.stage)
  {
    t := TaskMoves(cfg, s);
    if t.client != TaskReturns(s.client, s.client.running.value.task) {
      var u := t;
      t := TaskCompletes(cfg, u);
      LeadsOn(cfg, s, u, t);
    }
  }

  // ---------------------------------------------------------------- stale work

  /** `t` differs from `s` in the queue, the checkpoint and the history alone. */
  predicate SameSession(s: State, t: State) {
    t.client == s.client.(chain := t.client.chain, running := t.client.running) && SameServer(s, t)
  }

  predicate QueueIdle(c: Client) {
    c.chain == [] && c.running == None
  }

  /** A queue of stale tasks works itself off. */
  lemma {:induction false} StaleQueueDrains(cfg: Config, s: State) returns (t: State)
    requires NoActiveTask(s.client)
    ensures Leads(cfg, s, t) && SameSession(s, t) && QueueIdle(t.client)
    decreases |s.client.chain|
  {
    LeadsStay(cfg, s);
    t := s;
    if s.client.running.Some? {
      t := TaskCompletes(cfg, s);
    }
    if t.client.chain != [] {
      assert !Active(t.client, t.client.chain[0]);
      var u := Step(cfg, t, TaskStarts).value;
      LeadsThen(cfg, s, t, TaskStarts, u);
      assert u.client == t.client.(chain := t.client.chain[1..]);
      t := StaleQueueDrains(cfg, u);
      LeadsOn(cfg, s, u, t);
    }
  }

  // ---------------------------------------------------------------- the catch-up

  /** The catch-up has handed over the last page, and all its tasks have returned. */
  predicate CaughtUp(cfg: Config, s: State) {
    && s.client.connection.InPage? && s.client.connection.rest == [] && |s.client.connection.page| < cfg.pageLimit
    && s.readTo == |s.log|
  }

  /** A page in progress, with nothing else in the queue. */
  predicate InPageIdle(s: State) {
    && !s.client.stopped && QueueIdle(s.client)
    && s.client.connection.InPage? && !s.client.connection.submitted
  }

  /** `t` has come from `s` by tasks of the page. */
  predicate SamePage(s: State, t: State) {
    && t.client == s.client.(connection := t.client.connection)
    && s.client.connection.InPage? && t.client.connection.InPage?
    && t.client.connection.page == s.client.connection.page && t.client.connection.cursor == s.client.connection.cursor
    && t.log == s.log && t.readTo == s.readTo
  }

  /** The next event of a page is handed to the queue, and its task starts. */
  lemma EventStarts(cfg: Config, s: State) returns (t: State)
    requires InPageIdle(s) && s.client.connection.rest != []
    ensures Leads(cfg, s, t) && t.log == s.log && t.readTo == s.readTo
    ensures var task := Task(s.client.connection.rest[0], s.client.generation, Rest);
            t.client == s.client.(running := Some(Running(task, Loading)), connection := s.client.connection.(submitted := true))
  {
    var u := Step(cfg, s, NextEvent).value;
    LeadsStep(cfg, s, NextEvent, u);
    t := Step(cfg, u, TaskStarts).value;
    LeadsThen(cfg, s, u, TaskStarts, t);
    assert u.client.chain[1..] == [];
  }

  /** The next event of a page is applied, unless it is covered, and its task returns. */
  lemma EventPasses(cfg: Config, s: State) returns (t: State)
    requires InPageIdle(s) && s.client.connection.rest != []
    ensures Leads(cfg, s, t) && SamePage(s, t) && InPageIdle(t)
    ensures t.client.connection.rest == s.client.connection.rest[1..]
  {
    var u := EventStarts(cfg, s);
    t := TaskCompletes(cfg, u);
    LeadsOn(cfg, s, u, t);
  }

  lemma {:induction false} PagePasses(cfg: Config, s: State) returns (t: State)
    requires InPageIdle(s)
    ensures Leads(cfg, s, t) && SamePage(s, t) && InPageIdle(t) && t.client.connection.rest == []
    decreases |s.client.connection.rest|
  {
    LeadsStay(cfg, s);
    t := s;
    if s.client.connection.rest != [] {
      var u := EventPasses(cfg, s);
      t := PagePasses(cfg, u);
      LeadsOn(cfg, s, u, t);
    }
  }

  /** A page is read and worked off. */
  lemma OnePage(cfg: Config, s: State, cursor: int) returns (t: State)
    requires !s.client.stopped && QueueIdle(s.client) && s.client.connection == AwaitPage(cursor)
    ensures Leads(cfg, s, t) && InPageIdle(t) && t.log == s.log && t.readTo == |s.log|
    ensures t.client.connection == InPage(cursor, Page(s.log, cursor, cfg.pageLimit), [], false)
  {
    var u := Step(cfg, s, PageRead).value;
    LeadsStep(cfg, s, PageRead, u);
    t := PagePasses(cfg, u);
    LeadsOn(cfg, s, u, t);
  }

  /** A full page is turned. */
  lemma FullPageTurns(cfg: Config, s: State, cursor: int) returns (t: State)
    requires cfg.pageLimit > 0 && InPageIdle(s) && |Page(s.log, cursor, cfg.pageLimit)| >= cfg.pageLimit
    requires s.client.connection == InPage(cursor, Page(s.log, cursor, cfg.pageLimit), [], false)
    ensures Leads(cfg, s, t) && t.log == s.log && !t.client.stopped && QueueIdle(t.client)
    ensures t.client.connection == AwaitPage(NextCursor(s.log, cursor, cfg.pageLimit).cursor)
    ensures !NextCursor(s.log, cursor, cfg.pageLimit).done
  {
    t := Step(cfg, s, PageDone).value;
    LeadsStep(cfg, s, PageDone, t);
  }

  /** From any cursor the pages lead to the end of the log. */
  lemma {:induction false} PagesCatchUp(cfg: Config, s: State, cursor: int) returns (t: State)
    requires cfg.pageLimit > 0 && !s.client.stopped && QueueIdle(s.client) && s.client.connection == AwaitPage(cursor)
    ensures Leads(cfg, s, t) && CaughtUp(cfg, t) && t.log == s.log
    decreases MaxBlock(s.log, cursor) - cursor
  {
    t := OnePage(cfg, s, cursor);
    if |t.client.connection.page| >= cfg.pageLimit {
      PageProgress(s.log, cursor, cfg.pageLimit);
      var u := FullPageTurns(cfg, t, cursor);
      LeadsOn(cfg, s, t, u);
      t := PagesCatchUp(cfg, u, NextCursor(s.log, cursor, cfg.pageLimit).cursor);
      LeadsOn(cfg, s, u, t);
    }
  }

  /** A new session, once its stale work is done, is acknowledged and catches up. */
  lemma SessionCatchesUp(cfg: Config, s: State) returns (t: State)
    requires cfg.pageLimit > 0 && !s.client.stopped && QueueIdle(s.client)
    requires s.client.socket == Open && s.client.connection == AwaitSubscribed && s.subscription == None
    ensures Leads(cfg, s, t) && CaughtUp(cfg, t) && t.log == s.log
  {
    var s1 := Step(cfg, s, Activate).value;
    LeadsStep(cfg, s, Activate, s1);
    var s2 := Step(cfg, s1, Acknowledged).value;
    LeadsThen(cfg, s, s1, Acknowledged, s2);
    var s3 := Step(cfg, s2, CursorLoaded).value;
    LeadsThen(cfg, s, s2, CursorLoaded, s3);
    t := PagesCatchUp(cfg, s3, s3.store.lastBlockHeight);
    LeadsOn(cfg, s, s3, t);
  }

  /** The timer fires: a new generation, in which all queued work is stale. */
  lemma TimerReconnects(cfg: Config, s: State) returns (t: State)
    requires s.client.reconnectTimer && !s.client.stopped && IndexerSafety.GenerationsBounded(s.client)
    ensures Leads(cfg, s, t) && t.log == s.log && NoActiveTask(t.client)
    ensures !t.client.stopped && t.client.socket == Open && t.client.connection == AwaitSubscribed && t.subscription == None
  {
    t := Step(cfg, s, ReconnectTimer).value;
    LeadsStep(cfg, s, ReconnectTimer, t);
  }

  // ---------------------------------------------------------------- the claims

  /** Every indexer event of the log with a block and a sender is committed, or the first checkpoint covered it. */
  ghost predicate AllDone(cfg: Config, log: seq<Event>, t: State) {
    forall e :: e in log && e.kind == "indexer-event" && e.block > 0 && e.sender != "" ==> Done(cfg, t.trace, |t.trace|, e)
  }

  lemma CaughtUpIsDone(cfg: Config, t: State)
    requires ValidConfig(cfg) && Cooperative(cfg) && Reachable(cfg, t) && CaughtUp(cfg, t)
    ensures AllDone(cfg, t.log, t)
  {
    IndexerGapFreedom.LiveSessionsLoseNothing(cfg, t);
    forall e | e in t.log && IsProcessable(e) ensures Done(cfg, t.trace, |t.trace|, e) {
      var k :| 0 <= k < |t.log| && t.log[k] == e;
    }
  }

  /**
   * With a cooperative indexer, from every reachable state of a serving client without a socket the
   * timer, a connect, the acknowledgement, pages and tasks lead to a state in which every processable
   * event of the log is dealt with.
   */
  lemma LostSocketRecovers(cfg: Config, s: State) returns (t: State)
    requires ValidConfig(cfg) && Cooperative(cfg) && Reachable(cfg, s)
    requires Serving(s.client) && s.client.socket != Open
    ensures Leads(cfg, s, t) && t.log == s.log && AllDone(cfg, s.log, t)
  {
    LostSocketHasTimer(cfg, s);
    var actions :| Run(cfg, actions) == Some(s);
    IndexerSafety.RunKeepsInv(cfg, actions);
    var s1 := TimerReconnects(cfg, s);
    var s2 := StaleQueueDrains(cfg, s1);
    LeadsOn(cfg, s, s1, s2);
    t := SessionCatchesUp(cfg, s2);
    LeadsOn(cfg, s, s2, t);
    LeadsReaches(cfg, s, t);
    CaughtUpIsDone(cfg, t);
  }

  /** The same for a session that still has its socket, once its watchdog has fired. */
  lemma SilentSessionRecovers(cfg: Config, s: State) returns (u: State, t: State)
    requires ValidConfig(cfg) && Cooperative(cfg) && Reachable(cfg, s) && Serving(s.client)
    ensures Step(cfg, s, WatchdogFires) == Some(u) && u.log == s.log && u.client.socket != Open
    ensures Leads(cfg, u, t) && AllDone(cfg, s.log, t)
  {
    u := Step(cfg, s, WatchdogFires).value;
    assert [WatchdogFires][1..] == [];
    assert RunFrom(cfg, s, [WatchdogFires]) == Some(u);
    RunFromReaches(cfg, s, [WatchdogFires]);
    t := LostSocketRecovers(cfg, u);
  }

  lemma {:induction false} LogOnlyGrows(cfg: Config, s: State, actions: seq<Action>)
    requires RunFrom(cfg, s, actions).Some?
    ensures s.log <= RunFrom(cfg, s, actions).value.log
    decreases |actions|
  {
    if actions != [] {
      LogOnlyGrows(cfg, Step(cfg, s, actions[0]).value, actions[1..]);
    }
  }

  /** Whatever follows the failure of a task, its event stays in the log, and the state reachable. */
  lemma EventStaysLogged(cfg: Config, s: State, t: State, between: seq<Action>, u: State)
    requires ValidConfig(cfg) && Cooperative(cfg) && Reachable(cfg, s) && s.client.running.Some?
    requires Step(cfg, s, TaskFails) == Some(t) && RunFrom(cfg, t, between) == Some(u)
    ensures EventOk(u, s.client.running.value.task.event) && Reachable(cfg, u)
  {
    var actions :| Run(cfg, actions) == Some(s);
    IndexerGapFreedom.RunKeepsInv(cfg, actions);
    assert EventOk(s, s.client.running.value.task.event);
    assert [TaskFails][1..] == [];
    assert RunFrom(cfg, s, [TaskFails]) == Some(t);
    RunFromReaches(cfg, s, [TaskFails]);
    RunFromReaches(cfg, t, between);
    LogOnlyGrows(cfg, t, between);
  }

  /**
   * Main result, the second half of failure containment. A live event of the current session fails;
   * afterwards anything may happen. As long as the client serves, a continuation deals with that event:
   * of recovery steps alone if the socket is gone, as it is right after the failure, and after the
   * watchdog otherwise.
   */
  lemma FailedEventIsRecovered(cfg: Config, s: State, t: State, between: seq<Action>, u: State) returns (v: State, w: State)
    requires ValidConfig(cfg) && Cooperative(cfg) && Reachable(cfg, s)
    requires s.client.running.Some? && s.client.running.value.task.kind == Live && Active(s.client, s.client.running.value.task)
    requires Step(cfg, s, TaskFails) == Some(t) && RunFrom(cfg, t, between) == Some(u) && Serving(u.client)
    ensures t.client.socket != Open
    ensures v == u || (u.client.socket == Open && Step(cfg, u, WatchdogFires) == Some(v))
    ensures Leads(cfg, v, w) && Done(cfg, w.trace, |w.trace|, s.client.running.value.task.event)
  {
    EventStaysLogged(cfg, s, t, between, u);
    if u.client.socket == Open {
      v, w := SilentSessionRecovers(cfg, u);
    } else {
      v := u;
      w := LostSocketRecovers(cfg, u);
    }
  }
}
