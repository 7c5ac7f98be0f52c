/**
 * The indexer synchronisation as a state machine: one client process with its queue and its
 * generations, the durable checkpoint, and a server with an append-only, block-ordered log.
 *
 * Models packages/agent-sdk/src/blockchain/IndexerWebSocketService.ts. Every step is one stretch of
 * code between two awaits, so steps interleave wherever the event loop can interleave them. The
 * functions on `Client` are what the methods of class IndexerService.IndexerWebSocketService compute.
 */
module IndexerProtocol {
  import opened Options
  import opened IndexerSync
  import opened VeranaHelpers

  const MAX_SYNC_BUFFER: nat := 10_000

  // ---------------------------------------------------------------- the client process

  datatype Phase = Connecting | CatchingUp | Synced

  datatype Socket = NoSocket | Open | Closed

  /** A task is awaited by the catch-up (`Rest`) or only watched by `enqueueLive` (`Live`). */
  datatype TaskKind = Rest | Live

  datatype Task = Task(event: Event, generation: nat, kind: TaskKind)

  /** Where `applyEvent` stands, between its awaits. */
  datatype Stage =
    | Loading
    | Fetching(snapshot: SyncState)
    | Applying(snapshot: SyncState)
    | Saved

  datatype Running = Running(task: Task, stage: Stage)

  /**
   * Where the `connect` call of the current generation stands. A call whose generation is stale, or
   * whose service is stopped, returns at its next resumption; such a call is not represented.
   */
  datatype Connection =
    | Idle
    | AwaitSubscribed
    | LoadCursor
    | AwaitPage(cursor: int)
    | InPage(cursor: int, page: seq<Event>, rest: seq<Event>, submitted: bool)
    | CatchUpFailed
    | Finished

  datatype Client = Client(
    generation: nat,
    stopped: bool,
    syncing: bool,
    phase: Phase,
    everSynced: bool,
    socket: Socket,
    reconnectTimer: bool,
    reconnectAttempt: nat,
    syncBuffer: seq<Event>,
    chain: seq<Task>,
    running: Option<Running>,
    connection: Connection)

  const NEW_CLIENT :=
    Client(0, false, false, Connecting, false, NoSocket, false, 0, [], [], None, Idle)

  function ScheduleReconnect(c: Client): Client {
    if c.reconnectTimer || c.stopped then c
    else c.(reconnectTimer := true, reconnectAttempt := c.reconnectAttempt + 1)
  }

  /** Abandons the socket and the generation, so queued work of this generation stops. */
  function ForceReconnect(c: Client): Client {
    if c.stopped then c
    else ScheduleReconnect(c.(
      phase := Connecting, generation := c.generation + 1, socket := NoSocket, connection := Idle))
  }

  function Connect(c: Client): Client {
    if c.stopped then c
    else c.(
      generation := c.generation + 1, syncing := true, phase := Connecting, syncBuffer := [],
      socket := Open, connection := AwaitSubscribed)
  }

  function Stop(c: Client): Client {
    c.(stopped := true, reconnectTimer := false, socket := NoSocket, connection := Idle)
  }

  function EnqueueLive(c: Client, e: Event): Client {
    c.(chain := c.chain + [Task(e, c.generation, Live)])
  }

  /** The events of one `block` message, in message order. An overflow drops the rest of the message. */
  function HandleBlock(c: Client, events: seq<Event>): Client
    decreases |events|
  {
    if events == [] then c
    else if !IsProcessable(events[0]) then HandleBlock(c, events[1..])
    else if !c.syncing then HandleBlock(EnqueueLive(c, events[0]), events[1..])
    else if |c.syncBuffer| < MAX_SYNC_BUFFER then
      HandleBlock(c.(syncBuffer := c.syncBuffer + [events[0]]), events[1..])
    else ForceReconnect(c)
  }

  function LiveTasks(events: seq<Event>, generation: nat): seq<Task> {
    seq(|events|, i requires 0 <= i < |events| => Task(events[i], generation, Live))
  }

  /** `connect` after `syncRest` returned: go live, then drain the buffer in position order. */
  function GoLive(c: Client): Client {
    c.(syncing := false, phase := Synced, everSynced := true, syncBuffer := [], connection := Finished,
       chain := c.chain + LiveTasks(SortEventsByPosition(c.syncBuffer), c.generation))
  }

  /** The `subscribed` race is lost to a closing socket: `connect` returns. */
  function Abandon(c: Client): Client {
    if c.connection == AwaitSubscribed then c.(connection := Idle) else c
  }

  function SocketClosed(c: Client): Client {
    ScheduleReconnect(Abandon(c.(socket := Closed, phase := Connecting)))
  }

  function PageArrives(c: Client, page: seq<Event>): Client
    requires c.connection.AwaitPage?
  {
    c.(connection := InPage(c.connection.cursor, page, SortEventsByPosition(Processable(page)), false))
  }

  /** The loop of `syncRest` hands the next event of the page to the queue. */
  function SubmitEvent(c: Client): Client
    requires c.connection.InPage? && c.connection.rest != []
  {
    c.(chain := c.chain + [Task(c.connection.rest[0], c.generation, Rest)],
       connection := c.connection.(submitted := true))
  }

  function FinishPage(c: Client, pageLimit: nat): Client
    requires c.connection.InPage?
  {
    var next := NextRestCursor(c.connection.page, c.connection.cursor, pageLimit);
    if next.done then GoLive(c) else c.(connection := AwaitPage(next.cursor))
  }

  /** A task of the current generation, in a service that is not stopped. */
  predicate Active(c: Client, t: Task) {
    !c.stopped && t.generation == c.generation
  }

  /** The queue slot is free again; a catch-up that awaited this task moves to its next event. */
  function TaskReturns(c: Client, t: Task): Client {
    var free := c.(running := None);
    if t.kind == Rest && Active(c, t) && c.connection.InPage? && c.connection.submitted && c.connection.rest != [] then
      free.(connection := c.connection.(rest := c.connection.rest[1..], submitted := false))
    else free
  }

  /** The task rejects. The microtask order behind the `Live` case is the subject of PromiseChain. */
  function TaskRejects(c: Client, t: Task): Client {
    var free := c.(running := None);
    if t.kind == Live then
      if t.generation == c.generation then ForceReconnect(free) else free
    else if Active(c, t) then free.(connection := CatchUpFailed)
    else free
  }

  function StartTask(c: Client): Client
    requires c.running == None && c.chain != []
  {
    var t := c.chain[0];
    var popped := c.(chain := c.chain[1..]);
    if Active(c, t) then popped.(running := Some(Running(t, Loading))) else TaskReturns(popped, t)
  }

  function StateLoaded(c: Client, stored: SyncState): Client
    requires c.running.Some? && c.running.value.stage == Loading
  {
    var t := c.running.value.task;
    if Covered(stored, t.event) then TaskReturns(c, t)
    else c.(running := Some(Running(t, Fetching(stored))))
  }

  function ActivityFetched(c: Client): Client
    requires c.running.Some? && c.running.value.stage.Fetching?
  {
    var r := c.running.value;
    if Active(c, r.task) then c.(running := Some(r.(stage := Applying(r.stage.snapshot))))
    else TaskReturns(c, r.task)
  }

  function StateSaved(c: Client): Client
    requires c.running.Some? && c.running.value.stage.Applying?
  {
    c.(running := Some(c.running.value.(stage := Saved)))
  }

  // ---------------------------------------------------------------- client, storage and server

  /** `base` is the log length when the subscription became active, `next` the next event to deliver. */
  datatype Subscription = Subscription(base: nat, next: nat)

  /** What the history of a run records. An epoch is one process life. */
  datatype Entry =
    | Committed(block: int, key: string, epoch: nat, generation: nat)
    | LiveFailed(epoch: nat, generation: nat)

  datatype State = State(
    client: Client,
    store: SyncState,
    log: seq<Event>,
    subscription: Option<Subscription>,
    readTo: nat,  // the log length when the last page was read
    trace: seq<Entry>,
    epoch: nat)

  /** The environment: where the agent starts from, and what the indexer may do. */
  datatype Config = Config(
    initial: SyncState,
    pageLimit: nat,
    maxBlockEvents: nat,  // no block ever holds more events
    ackMayTimeOut: bool)  // the `subscribed` acknowledgement may miss its deadline

  ghost predicate ValidConfig(cfg: Config) {
    cfg.pageLimit > 0 && cfg.maxBlockEvents > 0 && Valid(cfg.initial)
  }

  datatype Action =
    | Append(events: seq<Event>)
    | Activate
    | Start
    | StopService
    | RestartProcess
    | ReconnectTimer
    | Ready
    | Acknowledged
    | SubscribeAbandoned
    | SubscribeTimedOut
    | CursorLoaded
    | PageRead
    | PageFails
    | NextEvent
    | PageDone
    | ReportCatchUpFailure
    | TaskStarts
    | TaskLoads
    | TaskFetches
    | TaskSaves
    | TaskEnds
    | TaskFails
    | Deliver(count: nat)
    | CloseSocket
    | WatchdogFires

  /** No `limit + 1` consecutive log events share a block. */
  ghost predicate BlocksAtMost(log: seq<Event>, limit: nat) {
    forall i, j :: 0 <= i && i + limit == j && j < |log| ==> log[i].block != log[j].block
  }

  function Initial(cfg: Config): State {
    State(NEW_CLIENT, cfg.initial, [], None, 0, [], 0)
  }

  /** The state after a step, or None where the step is not enabled. */
  ghost function Step(cfg: Config, s: State, a: Action): Option<State> {
    var c := s.client;
    match a
    case Append(events) =>
      var log := s.log + events;
      if BlockSorted(log) && BlocksAtMost(log, cfg.maxBlockEvents) then Some(s.(log := log)) else None
    case Activate =>
      if c.socket == Open && s.subscription == None
      then Some(s.(subscription := Some(Subscription(|s.log|, |s.log|)))) else None
    case Start => Some(s.(client := Connect(c.(stopped := false)), subscription := None))
    case StopService => Some(s.(client := Stop(c)))
    case RestartProcess =>
      Some(s.(client := NEW_CLIENT, subscription := None, epoch := s.epoch + 1))
    case ReconnectTimer =>
      if c.reconnectTimer && !c.stopped
      then Some(s.(client := Connect(c.(reconnectTimer := false)), subscription := None)) else None
    case Ready => if c.socket == Open then Some(s.(client := c.(reconnectAttempt := 0))) else None
    case Acknowledged =>
      if c.socket == Open && c.connection == AwaitSubscribed && s.subscription.Some?
      then Some(s.(client := c.(phase := CatchingUp, connection := LoadCursor))) else None
    case SubscribeAbandoned =>
      if c.connection == AwaitSubscribed then Some(s.(client := Abandon(c))) else None
    case SubscribeTimedOut =>
      if cfg.ackMayTimeOut && c.connection == AwaitSubscribed
      then Some(s.(client := c.(phase := CatchingUp, connection := LoadCursor))) else None
    case CursorLoaded =>
      if c.connection == LoadCursor
      then Some(s.(client := c.(connection := AwaitPage(s.store.lastBlockHeight)))) else None
    case PageRead =>
      if c.connection.AwaitPage?
      then Some(s.(client := PageArrives(c, Page(s.log, c.connection.cursor, cfg.pageLimit)), readTo := |s.log|))
      else None
    case PageFails =>
      if c.connection == LoadCursor || c.connection.AwaitPage?
      then Some(s.(client := c.(connection := CatchUpFailed))) else None
    case NextEvent =>
      if c.connection.InPage? && !c.connection.submitted && c.connection.rest != []
      then Some(s.(client := SubmitEvent(c))) else None
    case PageDone =>
      if c.connection.InPage? && !c.connection.submitted && c.connection.rest == []
      then Some(s.(client := FinishPage(c, cfg.pageLimit))) else None
    case ReportCatchUpFailure =>
      if c.connection == CatchUpFailed then Some(s.(client := ForceReconnect(c))) else None
    case TaskStarts =>
      if c.running == None && c.chain != [] then Some(s.(client := StartTask(c))) else None
    case TaskLoads =>
      if c.running.Some? && c.running.value.stage == Loading
      then Some(s.(client := StateLoaded(c, s.store))) else None
    case TaskFetches =>
      if c.running.Some? && c.running.value.stage.Fetching?
      then Some(s.(client := ActivityFetched(c))) else None
    case TaskSaves =>
      if c.running.Some? && c.running.value.stage.Applying? then
        var t := c.running.value.task;
        Some(s.(client := StateSaved(c),
                store := CommitEvent(c.running.value.stage.snapshot, t.event),
                trace := s.trace + [Committed(t.event.block, EventKey(t.event), s.epoch, t.generation)]))
      else None
    case TaskEnds =>
      if c.running.Some? && c.running.value.stage == Saved
      then Some(s.(client := TaskReturns(c, c.running.value.task))) else None
    case TaskFails =>
      if c.running.Some? then
        var t := c.running.value.task;
        Some(s.(client := TaskRejects(c, t),
                trace := s.trace + (if t.kind == Live then [LiveFailed(s.epoch, t.generation)] else [])))
      else None
    case Deliver(count) =>
      if c.socket == Open && s.subscription.Some? && s.subscription.value.next + count <= |s.log| then
        var sub := s.subscription.value;
        Some(s.(client := HandleBlock(c, s.log[sub.next..sub.next + count]),
                subscription := Some(sub.(next := sub.next + count))))
      else None
    case CloseSocket =>
      if c.socket == Open then Some(s.(client := SocketClosed(c))) else None
    case WatchdogFires =>
      if c.stopped then None else Some(s.(client := ForceReconnect(c)))
  }

  ghost function Run(cfg: Config, actions: seq<Action>): Option<State> {
    if actions == [] then Some(Initial(cfg))
    else match Run(cfg, actions[..|actions| - 1])
      case None => None
      case Some(s) => Step(cfg, s, actions[|actions| - 1])
  }

  ghost predicate Reachable(cfg: Config, s: State) {
    exists actions :: Run(cfg, actions) == Some(s)
  }
}
