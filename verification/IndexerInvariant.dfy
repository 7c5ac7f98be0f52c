/**
 * The claims about the stored height of the indexer synchronisation, and the invariant behind them.
 * IndexerGapFreedom proves that every step keeps it.
 */
module IndexerInvariant {
  import opened Options
  import opened IndexerSync
  import opened VeranaHelpers
  import opened RestCatchUp
  import opened IndexerProtocol
  import IndexerSafety

  // ---------------------------------------------------------------- the claims

  ghost predicate CommittedBefore(trace: seq<Entry>, n: nat, block: int, key: string)
    requires n <= |trace|
  {
    exists i :: 0 <= i < n && trace[i].Committed? && trace[i].block == block && trace[i].key == key
  }

  /** The run has dealt with this event: the first checkpoint held it already, or it was committed. */
  ghost predicate Done(cfg: Config, trace: seq<Entry>, n: nat, e: Event)
    requires n <= |trace|
  {
    Covered(cfg.initial, e) || CommittedBefore(trace, n, e.block, EventKey(e))
  }

  /** `lastBlockHeight` is truthful: everything processable up to it is dealt with. */
  ghost predicate GapFree(cfg: Config, s: State) {
    forall e :: e in s.log && IsProcessable(e) && e.block <= s.store.lastBlockHeight ==>
      Done(cfg, s.trace, |s.trace|, e)
  }

  /** No commit jumps over an event of a lower block. */
  ghost predicate NoCommitJumps(cfg: Config, s: State) {
    forall i, e :: (0 <= i < |s.trace| && s.trace[i].Committed? &&
                    e in s.log && IsProcessable(e) && e.block < s.trace[i].block) ==> Done(cfg, s.trace, i, e)
  }

  // ---------------------------------------------------------------- the invariant

  ghost predicate LogOk(cfg: Config, s: State) {
    BlockSorted(s.log) && BlocksAtMost(s.log, cfg.maxBlockEvents)
  }

  /** Every commit is an event of the log; once there is one, the last one is just above the height. */
  ghost predicate CommitsFromLog(cfg: Config, s: State) {
    && (forall i :: 0 <= i < |s.trace| && s.trace[i].Committed? ==> exists k :: 0 <= k < |s.log| && s.log[k].block == s.trace[i].block)
    && (s.store == cfg.initial || exists k :: 0 <= k < |s.log| && s.log[k].block == s.store.lastBlockHeight + 1)
  }

  ghost predicate PartialKeysTrue(cfg: Config, s: State) {
    s.store.partialBlock.Some? ==> forall k :: k in s.store.partialKeys ==>
      || IndexerSafety.CoversKey(cfg.initial, s.store.partialBlock.value, k)
      || CommittedBefore(s.trace, |s.trace|, s.store.partialBlock.value, k)
  }

  ghost predicate CheckpointOk(cfg: Config, s: State) {
    CommitsFromLog(cfg, s) && PartialKeysTrue(cfg, s) && GapFree(cfg, s) && NoCommitJumps(cfg, s)
  }

  ghost predicate EventOk(s: State, e: Event) {
    e in s.log && IsProcessable(e)
  }

  ghost predicate TasksFromLog(s: State) {
    && (forall i :: 0 <= i < |s.client.chain| ==> EventOk(s, s.client.chain[i].event))
    && (s.client.running.Some? ==> EventOk(s, s.client.running.value.task.event))
  }

  /** Everything processable up to a height is covered by the stored checkpoint. */
  ghost predicate CoveredUpTo(s: State, height: int) {
    forall f :: EventOk(s, f) && f.block <= height ==> Covered(s.store, f)
  }

  ghost predicate RunningOk(s: State) {
    s.client.running.Some? ==>
      var r := s.client.running.value;
      && (r.stage.Applying? ==> CoveredUpTo(s, r.task.event.block - 1))
      && (Active(s.client, r.task) && !r.stage.Saved? ==> CoveredUpTo(s, r.task.event.block - 1))
      && (r.stage.Saved? ==> Covered(s.store, r.task.event))
  }

  ghost predicate RunningMatches(c: Client, f: Event) {
    c.running.Some? && Active(c, c.running.value.task) && SameEvent(c.running.value.task.event, f)
  }

  ghost predicate QueuedBefore(c: Client, n: nat, f: Event)
    requires n <= |c.chain|
  {
    exists j :: 0 <= j < n && Active(c, c.chain[j]) && SameEvent(c.chain[j].event, f)
  }

  /** The event is stored, or in line before queue position `n`. */
  ghost predicate AccountedBefore(s: State, n: nat, f: Event)
    requires n <= |s.client.chain|
  {
    Covered(s.store, f) || RunningMatches(s.client, f) || QueuedBefore(s.client, n, f)
  }

  /** Queued events of the live generation wait behind everything of a lower block. */
  ghost predicate QueueOk(s: State) {
    forall i, f :: (0 <= i < |s.client.chain| && Active(s.client, s.client.chain[i]) &&
                    EventOk(s, f) && f.block < s.client.chain[i].event.block) ==> AccountedBefore(s, i, f)
  }

  ghost predicate NoActiveInChain(c: Client) {
    forall i :: 0 <= i < |c.chain| ==> !Active(c, c.chain[i])
  }

  ghost predicate NoActiveTask(c: Client) {
    NoActiveInChain(c) && (c.running.Some? ==> !Active(c, c.running.value.task))
  }

  /** The one active task is the catch-up task for event `e`. */
  ghost predicate OnlyRestTask(c: Client, e: Event) {
    if c.running.Some? && Active(c, c.running.value.task) then
      NoActiveInChain(c) && c.running.value.task.kind == Rest && c.running.value.task.event == e
    else
      exists k :: 0 <= k < |c.chain| && Active(c, c.chain[k]) && c.chain[k].kind == Rest && c.chain[k].event == e &&
        forall i :: 0 <= i < |c.chain| && i != k ==> !Active(c, c.chain[i])
  }

  ghost predicate ClientOk(c: Client) {
    && (c.socket != NoSocket ==> !c.stopped)
    && (c.socket == Open && c.connection != Finished ==> c.syncing)
    && (!c.connection.Idle? ==> !c.stopped)
    && (c.connection.Finished? ==> !c.syncing)
    && (if c.connection.InPage? && c.connection.submitted then
          c.connection.rest != [] && OnlyRestTask(c, c.connection.rest[0])
        else if c.connection.Finished? then
          && (forall i :: 0 <= i < |c.chain| && Active(c, c.chain[i]) ==> c.chain[i].kind == Live)
          && (c.running.Some? && Active(c, c.running.value.task) ==> c.running.value.task.kind == Live)
        else NoActiveTask(c))
  }

  /** Blocks up to the cursor stay complete even when the log grows. */
  ghost predicate CursorClosed(cfg: Config, s: State, cursor: int) {
    || cursor <= s.store.lastBlockHeight
    || (exists k :: 0 <= k < |s.log| && s.log[k].block > cursor)
    || (exists i, j :: 0 <= i <= j < |s.log| && i + cfg.pageLimit == j + 1 && s.log[i].block == cursor == s.log[j].block)
  }

  ghost predicate CursorOk(cfg: Config, s: State, cursor: int) {
    CoveredUpTo(s, cursor) && CursorClosed(cfg, s, cursor)
  }

  ghost predicate RestMatches(rest: seq<Event>, f: Event) {
    exists k :: 0 <= k < |rest| && SameEvent(rest[k], f)
  }

  ghost predicate PageOk(cfg: Config, s: State, cursor: int, page: seq<Event>, rest: seq<Event>) {
    && CursorOk(cfg, s, cursor)
    && s.readTo <= |s.log|
    && page == Page(s.log[..s.readTo], cursor, cfg.pageLimit)
    && BlockSorted(rest)
    && (forall k :: 0 <= k < |rest| ==> rest[k] in page && EventOk(s, rest[k]))
    && (forall f :: f in page && IsProcessable(f) ==> Covered(s.store, f) || RestMatches(rest, f))
  }

  ghost predicate SubscriptionOk(s: State) {
    && (s.subscription.Some? ==> s.subscription.value.base <= s.subscription.value.next <= |s.log|)
    && (s.client.connection.LoadCursor? || s.client.connection.AwaitPage? ==> s.subscription.Some?)
    && (s.client.connection.InPage? || s.client.connection.Finished? ==> s.subscription.Some?)
  }

  ghost predicate Buffering(c: Client) {
    c.connection.AwaitSubscribed? || c.connection.LoadCursor? || c.connection.AwaitPage? || c.connection.InPage?
  }

  ghost predicate BufferOk(s: State) {
    Buffering(s.client) ==>
      && s.client.syncing
      && s.client.syncBuffer ==
         if s.subscription.None? then []
         else if s.subscription.value.base <= s.subscription.value.next <= |s.log|
         then Processable(s.log[s.subscription.value.base..s.subscription.value.next]) else []
  }

  ghost predicate ConnectionOk(cfg: Config, s: State) {
    match s.client.connection
    case AwaitPage(cursor) => CursorOk(cfg, s, cursor)
    case InPage(cursor, page, rest, submitted) =>
      PageOk(cfg, s, cursor, page, rest) && s.subscription.Some? && s.subscription.value.base <= s.readTo
    case Finished => Delivered(s)
    case _ => true
  }

  /** In a live session, everything delivered so far is stored or in line. */
  ghost predicate Delivered(s: State) {
    s.subscription.Some? ==> forall k :: 0 <= k < s.subscription.value.next && k < |s.log| && IsProcessable(s.log[k]) ==>
      AccountedBefore(s, |s.client.chain|, s.log[k])
  }

  ghost predicate Inv(cfg: Config, s: State) {
    IndexerSafety.Inv(s) && Core(cfg, s)
  }

  ghost predicate Core(cfg: Config, s: State) {
    WorkOk(cfg, s) && SessionOk(cfg, s)
  }

  /** What concerns the log, the checkpoint, the history and the queue. */
  ghost predicate WorkOk(cfg: Config, s: State) {
    LogOk(cfg, s) && CheckpointOk(cfg, s) && TasksFromLog(s) && RunningOk(s) && QueueOk(s)
  }

  /** What concerns the socket, the buffer and the progress of the catch-up. */
  ghost predicate SessionOk(cfg: Config, s: State) {
    ClientOk(s.client) && SubscriptionOk(s) && BufferOk(s) && ConnectionOk(cfg, s)
  }

  /** The indexer keeps the two promises the catch-up depends on. */
  ghost predicate Cooperative(cfg: Config) {
    !cfg.ackMayTimeOut && cfg.maxBlockEvents <= cfg.pageLimit
  }
}
