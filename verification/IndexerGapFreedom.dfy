/**
 * Gap-freedom of the indexer synchronisation: when the acknowledgement never times out and no block
 * exceeds a page, the stored height is truthful in every reachable state.
 */
module IndexerGapFreedom {
  import opened Options
  import opened IndexerSync
  import opened VeranaHelpers
  import opened RestCatchUp
  import opened IndexerProtocol
  import opened IndexerInvariant
  import IndexerSafety

  // ---------------------------------------------------------------- coverage only grows

  lemma DoneGrows(cfg: Config, trace: seq<Entry>, n: nat, more: seq<Entry>, m: nat, e: Event)
    requires n <= |trace| && n <= m <= |trace + more| && Done(cfg, trace, n, e)
    ensures Done(cfg, trace + more, m, e)
  {
    if !Covered(cfg.initial, e) {
      var i :| 0 <= i < n && trace[i].Committed? && trace[i].block == e.block && trace[i].key == EventKey(e);
      assert (trace + more)[i] == trace[i];
    }
  }

  /** What the checkpoint covers, the run has dealt with. */
  lemma CoveredIsDone(cfg: Config, s: State, e: Event)
    requires CheckpointOk(cfg, s) && EventOk(s, e) && Covered(s.store, e)
    ensures Done(cfg, s.trace, |s.trace|, e)
  {
  }

  // ---------------------------------------------------------------- sessions that end

  /** A step that leaves no active task, and no session under way, keeps the invariant. */
  lemma QuietStep(cfg: Config, s: State, t: State)
    requires Inv(cfg, s)
    requires t.store == s.store && t.log == s.log
    requires t.trace == s.trace || (|t.trace| == |s.trace| + 1 && t.trace == s.trace + [t.trace[|s.trace|]] && t.trace[|s.trace|].LiveFailed?)
    requires t.client.chain == s.client.chain || t.client.chain == []
    requires t.client.running == s.client.running || t.client.running == None
    requires NoActiveTask(t.client) && ClientOk(t.client)
    requires t.client.connection.Idle? || t.client.connection.AwaitSubscribed? || t.client.connection.CatchUpFailed?
    requires SubscriptionOk(t) && BufferOk(t)
    ensures Core(cfg, t)
  {
    TraceStep(cfg, s, t);
  }

  /** A failure entry in the history takes nothing away. */
  lemma TraceStep(cfg: Config, s: State, t: State)
    requires CheckpointOk(cfg, s)
    requires t.store == s.store && t.log == s.log
    requires t.trace == s.trace || (|t.trace| == |s.trace| + 1 && t.trace == s.trace + [t.trace[|s.trace|]] && t.trace[|s.trace|].LiveFailed?)
    ensures CheckpointOk(cfg, t)
  {
    if t.trace != s.trace {
      var more := [t.trace[|s.trace|]];
      forall e | EventOk(t, e) && e.block <= t.store.lastBlockHeight ensures Done(cfg, t.trace, |t.trace|, e) {
        DoneGrows(cfg, s.trace, |s.trace|, more, |t.trace|, e);
      }
      forall i, e | 0 <= i < |t.trace| && t.trace[i].Committed? && EventOk(t, e) && e.block < t.trace[i].block
        ensures Done(cfg, t.trace, i, e)
      {
        DoneGrows(cfg, s.trace, i, more, i, e);
      }
      if s.store.partialBlock.Some? {
        var b := s.store.partialBlock.value;
        forall k | k in s.store.partialKeys && !IndexerSafety.CoversKey(cfg.initial, b, k)
          ensures CommittedBefore(t.trace, |t.trace|, b, k)
        {
          var i :| 0 <= i < |s.trace| && s.trace[i].Committed? && s.trace[i].block == b && s.trace[i].key == k;
          assert t.trace[i] == s.trace[i];
        }
      }
    }
  }

  lemma OldGenerationsInactive(s: State, d: Client)
    requires IndexerSafety.Inv(s)
    requires d.chain == s.client.chain && (d.running == s.client.running || d.running == None)
    requires d.generation > s.client.generation || d.stopped
    ensures NoActiveTask(d)
  {
  }

  // ---------------------------------------------------------------- queue steps

  /** With the queue untouched, whatever is stored or running stays accounted for. */
  lemma QueueFrame(s: State, t: State)
    requires t.log == s.log && t.client.chain == s.client.chain
    requires t.client.generation == s.client.generation && t.client.stopped == s.client.stopped
    requires forall f :: Covered(s.store, f) || RunningMatches(s.client, f) ==>
                         Covered(t.store, f) || RunningMatches(t.client, f)
    ensures QueueOk(s) ==> QueueOk(t)
    ensures t.subscription == s.subscription && Delivered(s) ==> Delivered(t)
  {
    forall f, n: nat | n <= |s.client.chain| && AccountedBefore(s, n, f) ensures AccountedBefore(t, n, f) {
      if QueuedBefore(s.client, n, f) {
        assert QueuedBefore(t.client, n, f);
      }
    }
    if QueueOk(s) {
      forall i, f | 0 <= i < |t.client.chain| && Active(t.client, t.client.chain[i]) &&
                    EventOk(t, f) && f.block < t.client.chain[i].event.block
        ensures AccountedBefore(t, i, f)
      {
        assert AccountedBefore(s, i, f);
      }
    }
    if t.subscription == s.subscription && Delivered(s) && s.subscription.Some? {
      forall k | 0 <= k < s.subscription.value.next && k < |s.log| && IsProcessable(s.log[k])
        ensures AccountedBefore(t, |t.client.chain|, s.log[k])
      {
        assert AccountedBefore(s, |s.client.chain|, s.log[k]);
      }
    }
  }

  /** A step that leaves storage, history and queue alone. */
  lemma WorkFrame(cfg: Config, s: State, t: State)
    requires WorkOk(cfg, s)
    requires t.log == s.log && t.store == s.store && t.trace == s.trace
    requires t.client.chain == s.client.chain && t.client.running == s.client.running
    requires t.client.generation == s.client.generation && t.client.stopped == s.client.stopped
    ensures WorkOk(cfg, t)
  {
    QueueFrame(s, t);
  }

  /** A checkpoint that covers more keeps a cursor and a page in order. */
  lemma PageFrame(cfg: Config, s: State, t: State)
    requires t.log == s.log && t.readTo == s.readTo && t.store.lastBlockHeight >= s.store.lastBlockHeight
    requires forall f :: Covered(s.store, f) ==> Covered(t.store, f)
    ensures forall cursor :: CursorOk(cfg, s, cursor) ==> CursorOk(cfg, t, cursor)
    ensures forall cursor, page, rest :: PageOk(cfg, s, cursor, page, rest) ==> PageOk(cfg, t, cursor, page, rest)
  {
  }

  /** Dropping the head of the queue shifts every position by one. */
  lemma ShiftQueue(c: Client, d: Client, n: nat, f: Event)
    requires c.chain != [] && d.chain == c.chain[1..] && n < |c.chain|
    requires d.stopped == c.stopped && d.generation == c.generation
    requires QueuedBefore(c, n + 1, f)
    ensures (Active(c, c.chain[0]) && SameEvent(c.chain[0].event, f)) || QueuedBefore(d, n, f)
  {
    var j :| 0 <= j < n + 1 && Active(c, c.chain[j]) && SameEvent(c.chain[j].event, f);
    if j > 0 {
      assert d.chain[j - 1] == c.chain[j];
    }
  }

  lemma StartAccounts(s: State, t: State, n: nat, f: Event)
    requires s.client.running == None && s.client.chain != []
    requires t.store == s.store && t.client == StartTask(s.client)
    requires n < |s.client.chain| && AccountedBefore(s, n + 1, f)
    ensures AccountedBefore(t, n, f)
  {
    if !Covered(s.store, f) {
      ShiftQueue(s.client, t.client, n, f);
    }
  }

  lemma StartEffect(cfg: Config, s: State, t: State)
    requires Step(cfg, s, TaskStarts) == Some(t)
    ensures s.client.running == None && s.client.chain != [] && t == s.(client := StartTask(s.client))
    ensures t.client.connection == s.client.connection && t.client.chain == s.client.chain[1..]
    ensures t.client.stopped == s.client.stopped && t.client.generation == s.client.generation
  {
  }

  lemma StartKeepsQueue(s: State, t: State)
    requires QueueOk(s) && s.client.running == None && s.client.chain != [] && t == s.(client := StartTask(s.client))
    requires t.client.chain == s.client.chain[1..]
    requires t.client.stopped == s.client.stopped && t.client.generation == s.client.generation
    ensures QueueOk(t) && RunningOk(t)
  {
    var c, d := s.client, t.client;
    forall i, f | 0 <= i < |d.chain| && Active(d, d.chain[i]) && EventOk(t, f) && f.block < d.chain[i].event.block
      ensures AccountedBefore(t, i, f)
    {
      assert d.chain[i] == c.chain[i + 1];
      assert EventOk(s, f);
      assert AccountedBefore(s, i + 1, f);
      StartAccounts(s, t, i, f);
    }
    if Active(c, c.chain[0]) {
      forall f | EventOk(s, f) && f.block < c.chain[0].event.block ensures Covered(s.store, f) {
        assert AccountedBefore(s, 0, f);
      }
    }
  }

  lemma StartKeepsDelivered(cfg: Config, s: State, t: State)
    requires ConnectionOk(cfg, s) && s.client.running == None && s.client.chain != []
    requires t == s.(client := StartTask(s.client))
    requires t.client.connection == s.client.connection && t.client.chain == s.client.chain[1..]
    ensures ConnectionOk(cfg, t)
  {
    if s.client.connection.Finished? && s.subscription.Some? {
      forall k | 0 <= k < s.subscription.value.next && k < |s.log| && IsProcessable(s.log[k])
        ensures AccountedBefore(t, |t.client.chain|, s.log[k])
      {
        assert AccountedBefore(s, |s.client.chain|, s.log[k]);
        StartAccounts(s, t, |t.client.chain|, s.log[k]);
      }
    }
  }

  lemma StartKeepsInv(cfg: Config, s: State, t: State)
    requires Inv(cfg, s) && Step(cfg, s, TaskStarts) == Some(t)
    ensures Core(cfg, t)
  {
    StartEffect(cfg, s, t);
    StartKeepsQueue(s, t);
    StartKeepsDelivered(cfg, s, t);
    StartKeepsClientOk(s, t);
  }

  lemma StartKeepsClientOk(s: State, t: State)
    requires ClientOk(s.client) && s.client.running == None && s.client.chain != [] && t.client == StartTask(s.client)
    ensures ClientOk(t.client)
  {
    var c, d := s.client, t.client;
    if c.connection.InPage? && c.connection.submitted {
      var e := c.connection.rest[0];
      var k :| 0 <= k < |c.chain| && Active(c, c.chain[k]) && c.chain[k].kind == Rest && c.chain[k].event == e &&
               forall i :: 0 <= i < |c.chain| && i != k ==> !Active(c, c.chain[i]);
      if k > 0 {
        assert d.chain[k - 1] == c.chain[k];
        assert !Active(c, c.chain[0]);
      }
    }
  }

  /** The running task leaves: it was stale, or its event is stored by now. */
  lemma ReturnKeepsInv(cfg: Config, s: State, t: State)
    requires Inv(cfg, s)
    requires s.client.running.Some?
    requires var task := s.client.running.value.task;
             && (Active(s.client, task) ==> Covered(s.store, task.event))
             && t == s.(client := TaskReturns(s.client, task))
    ensures Core(cfg, t)
  {
    var c, d := s.client, t.client;
    QueueFrame(s, t);
    if c.connection.InPage? && c.connection.submitted && Active(c, c.running.value.task) {
      assert c.running.value.task.event == c.connection.rest[0];
      RestShrinks(cfg, s, c.connection.cursor, c.connection.page, c.connection.rest);
    }
    PageFrame(cfg, s, t);
  }

  lemma RestShrinks(cfg: Config, s: State, cursor: int, page: seq<Event>, rest: seq<Event>)
    requires rest != [] && PageOk(cfg, s, cursor, page, rest) && Covered(s.store, rest[0])
    ensures PageOk(cfg, s, cursor, page, rest[1..])
  {
    forall f | f in page && IsProcessable(f) ensures Covered(s.store, f) || RestMatches(rest[1..], f) {
      if !Covered(s.store, f) {
        var k :| 0 <= k < |rest| && SameEvent(rest[k], f);
        assert k > 0 && rest[1..][k - 1] == rest[k];
      }
    }
  }

  /** Loading and fetching only move the running task along, or let it return. */
  lemma AdvanceKeepsInv(cfg: Config, s: State, t: State, stage: Stage)
    requires Inv(cfg, s)
    requires s.client.running.Some? && !s.client.running.value.stage.Saved? && !stage.Saved?
    requires s.client.running.value.stage.Applying? || Active(s.client, s.client.running.value.task) || !stage.Applying?
    requires t == s.(client := s.client.(running := Some(s.client.running.value.(stage := stage))))
    ensures Core(cfg, t)
  {
    AdvanceKeepsWork(cfg, s, t, stage);
    AdvanceKeepsSession(cfg, s, t, stage);
  }

  lemma AdvanceKeepsWork(cfg: Config, s: State, t: State, stage: Stage)
    requires WorkOk(cfg, s)
    requires s.client.running.Some? && !s.client.running.value.stage.Saved? && !stage.Saved?
    requires s.client.running.value.stage.Applying? || Active(s.client, s.client.running.value.task) || !stage.Applying?
    requires t == s.(client := s.client.(running := Some(s.client.running.value.(stage := stage))))
    ensures WorkOk(cfg, t)
  {
    QueueFrame(s, t);
  }

  lemma AdvanceKeepsSession(cfg: Config, s: State, t: State, stage: Stage)
    requires SessionOk(cfg, s) && s.client.running.Some?
    requires t == s.(client := s.client.(running := Some(s.client.running.value.(stage := stage))))
    ensures SessionOk(cfg, t)
  {
    if s.client.connection.Finished? && s.subscription.Some? {
      forall k | 0 <= k < t.subscription.value.next && k < |t.log| && IsProcessable(t.log[k])
        ensures AccountedBefore(t, |t.client.chain|, t.log[k])
      {
        assert AccountedBefore(s, |s.client.chain|, s.log[k]);
      }
    }
  }

  lemma LoadKeepsInv(cfg: Config, s: State, t: State)
    requires Inv(cfg, s) && Step(cfg, s, TaskLoads) == Some(t)
    ensures Core(cfg, t)
  {
    if Covered(s.store, s.client.running.value.task.event) {
      ReturnKeepsInv(cfg, s, t);
    } else {
      AdvanceKeepsInv(cfg, s, t, Fetching(s.store));
    }
  }

  lemma FetchKeepsInv(cfg: Config, s: State, t: State)
    requires Inv(cfg, s) && Step(cfg, s, TaskFetches) == Some(t)
    ensures Core(cfg, t)
  {
    var r := s.client.running.value;
    if Active(s.client, r.task) {
      AdvanceKeepsInv(cfg, s, t, Applying(r.stage.snapshot));
    } else {
      ReturnKeepsInv(cfg, s, t);
    }
  }

  // ---------------------------------------------------------------- the save

  lemma SaveKeepsCheckpoint(cfg: Config, s: State, t: State)
    requires Inv(cfg, s) && Step(cfg, s, TaskSaves) == Some(t)
    ensures CheckpointOk(cfg, t)
  {
    var task := s.client.running.value.task;
    var e := task.event;
    var entry := Committed(e.block, EventKey(e), s.epoch, task.generation);
    assert t.trace == s.trace + [entry];
    CommitCovers(s.store, e, e);
    var k :| 0 <= k < |s.log| && s.log[k] == e;
    assert s.log[k].block == t.store.lastBlockHeight + 1;
    forall f | EventOk(s, f) && f.block < e.block ensures Done(cfg, s.trace, |s.trace|, f) {
      assert Covered(s.store, f);
      CoveredIsDone(cfg, s, f);
    }
    forall f | EventOk(t, f) && f.block <= t.store.lastBlockHeight ensures Done(cfg, t.trace, |t.trace|, f) {
      DoneGrows(cfg, s.trace, |s.trace|, [entry], |t.trace|, f);
    }
    forall i, f | 0 <= i < |t.trace| && t.trace[i].Committed? && EventOk(t, f) && f.block < t.trace[i].block
      ensures Done(cfg, t.trace, i, f)
    {
      DoneGrows(cfg, s.trace, i, [entry], i, f);
    }
    SaveKeepsPartialKeys(cfg, s, t);
  }

  lemma SaveKeepsPartialKeys(cfg: Config, s: State, t: State)
    requires Inv(cfg, s) && Step(cfg, s, TaskSaves) == Some(t)
    ensures PartialKeysTrue(cfg, t)
  {
    var e := s.client.running.value.task.event;
    CommitCovers(s.store, e, e);
    assert t.trace[|s.trace|].key == EventKey(e) && t.trace[|s.trace|].block == e.block;
    forall k | k in t.store.partialKeys && !IndexerSafety.CoversKey(cfg.initial, e.block, k)
      ensures CommittedBefore(t.trace, |t.trace|, e.block, k)
    {
      if k != EventKey(e) {
        assert k in s.store.partialKeys && s.store.partialBlock == Some(e.block);
        var i :| 0 <= i < |s.trace| && s.trace[i].Committed? && s.trace[i].block == e.block && s.trace[i].key == k;
        assert t.trace[i] == s.trace[i];
      }
    }
  }

  lemma SaveKeepsSession(cfg: Config, s: State, t: State)
    requires Inv(cfg, s) && Step(cfg, s, TaskSaves) == Some(t)
    ensures QueueOk(t) && ConnectionOk(cfg, t)
  {
    var e := s.client.running.value.task.event;
    forall f | Covered(s.store, f) || SameEvent(e, f) ensures Covered(t.store, f) {
      CommitCovers(s.store, e, f);
    }
    CommitCovers(s.store, e, e);
    QueueFrame(s, t);
    PageFrame(cfg, s, t);
  }

  lemma SaveKeepsInv(cfg: Config, s: State, t: State)
    requires Inv(cfg, s) && Step(cfg, s, TaskSaves) == Some(t)
    ensures Core(cfg, t)
  {
    SaveKeepsCheckpoint(cfg, s, t);
    SaveKeepsSession(cfg, s, t);
    var e := s.client.running.value.task.event;
    CommitCovers(s.store, e, e);
  }

  lemma LiveFailureKeepsInv(cfg: Config, s: State, t: State)
    requires Inv(cfg, s) && IndexerSafety.Inv(t) && Step(cfg, s, TaskFails) == Some(t)
    requires Active(s.client, s.client.running.value.task) && s.client.running.value.task.kind == Live
    ensures Core(cfg, t)
  {
    OldGenerationsInactive(s, t.client);
    QuietStep(cfg, s, t);
  }

  lemma RestFailureKeepsInv(cfg: Config, s: State, t: State)
    requires Inv(cfg, s) && IndexerSafety.Inv(t) && Step(cfg, s, TaskFails) == Some(t)
    requires Active(s.client, s.client.running.value.task) && s.client.running.value.task.kind == Rest
    ensures Core(cfg, t)
  {
    assert NoActiveTask(t.client);
    QuietStep(cfg, s, t);
  }

  lemma StaleFailureKeepsInv(cfg: Config, s: State, t: State)
    requires Inv(cfg, s) && Step(cfg, s, TaskFails) == Some(t)
    requires !Active(s.client, s.client.running.value.task)
    ensures Core(cfg, t)
  {
    var u := s.(client := TaskReturns(s.client, s.client.running.value.task));
    ReturnKeepsInv(cfg, s, u);
    assert t.client == u.client;
    TraceOnly(cfg, u, t);
  }

  lemma TraceOnly(cfg: Config, u: State, t: State)
    requires Core(cfg, u) && t == u.(trace := t.trace)
    requires t.trace == u.trace || (|t.trace| == |u.trace| + 1 && t.trace == u.trace + [t.trace[|u.trace|]] && t.trace[|u.trace|].LiveFailed?)
    ensures Core(cfg, t)
  {
    TraceStep(cfg, u, t);
    QueueFrame(u, t);
    PageFrame(cfg, u, t);
  }

  // ---------------------------------------------------------------- the log grows

  lemma NewEventsAreLate(log: seq<Event>, events: seq<Event>, f: Event)
    requires BlockSorted(log + events) && f in log + events && f !in log
    ensures forall g :: g in log ==> g.block <= f.block
  {
    assert forall i :: 0 <= i < |log| ==> (log + events)[i] == log[i];
    var j :| 0 <= j < |log + events| && (log + events)[j] == f;
    forall g | g in log ensures g.block <= f.block {
      var i :| 0 <= i < |log| && log[i] == g;
      assert (log + events)[i] == g;
    }
  }

  /** A new event is above every closed cursor, unless the stored height covers it. */
  lemma NewEventAboveCursor(cfg: Config, log: seq<Event>, events: seq<Event>, cursor: int, f: Event)
    requires BlockSorted(log + events) && BlocksAtMost(log + events, cfg.maxBlockEvents) && Cooperative(cfg)
    requires cfg.pageLimit > 0 && f in log + events && f !in log
    requires (exists k :: 0 <= k < |log| && log[k].block > cursor) ||
             (exists i, j :: 0 <= i <= j < |log| && i + cfg.pageLimit == j + 1 && log[i].block == cursor == log[j].block)
    ensures f.block > cursor
  {
    NewEventsAreLate(log, events, f);
    if k :| 0 <= k < |log| && log[k].block > cursor {
      assert log[k] in log;
    } else {
      var i, j :| 0 <= i <= j < |log| && i + cfg.pageLimit == j + 1 && log[i].block == cursor == log[j].block;
      NewEventAboveFullBlock(cfg, log, events, i, j, f);
    }
  }

  /** A block that fills a page is closed: what is new lies above it. */
  lemma NewEventAboveFullBlock(cfg: Config, log: seq<Event>, events: seq<Event>, i: nat, j: nat, f: Event)
    requires BlockSorted(log + events) && BlocksAtMost(log + events, cfg.maxBlockEvents) && Cooperative(cfg)
    requires cfg.pageLimit > 0 && f in log + events && f !in log
    requires i <= j < |log| && i + cfg.pageLimit == j + 1 && log[i].block == log[j].block
    ensures f.block > log[i].block
  {
    NewEventsAreLate(log, events, f);
    assert log[i] in log;
    var m :| 0 <= m < |log + events| && (log + events)[m] == f;
    assert forall l :: 0 <= l < |log| ==> (log + events)[l] == log[l];
    FullBlockIsClosed(log + events, cfg.maxBlockEvents, cfg.pageLimit, i, m);
  }

  lemma GrowthKeepsCursor(cfg: Config, s: State, t: State, cursor: int)
    requires LogOk(cfg, t) && Cooperative(cfg) && cfg.pageLimit > 0
    requires s.log <= t.log && t.store == s.store && CursorOk(cfg, s, cursor)
    ensures CursorOk(cfg, t, cursor)
  {
    var events := t.log[|s.log|..];
    assert t.log == s.log + events;
    forall f | EventOk(t, f) && f.block <= cursor ensures Covered(t.store, f) {
      if f !in s.log && cursor > s.store.lastBlockHeight {
        NewEventAboveCursor(cfg, s.log, events, cursor, f);
      }
    }
    if k :| 0 <= k < |s.log| && s.log[k].block > cursor {
      assert t.log[k].block > cursor;
    } else if cursor > s.store.lastBlockHeight {
      var i, j :| 0 <= i <= j < |s.log| && i + cfg.pageLimit == j + 1 && s.log[i].block == cursor == s.log[j].block;
      assert t.log[i].block == cursor == t.log[j].block;
    }
  }

  /** A block that fills a page does not continue beyond it. */
  lemma FullBlockIsClosed(log: seq<Event>, max: nat, limit: nat, i: nat, m: nat)
    requires BlockSorted(log) && BlocksAtMost(log, max) && max <= limit
    requires i + limit <= m < |log|
    ensures log[i].block < log[m].block
  {
    assert log[i].block != log[i + max].block;
    assert max == 0 || log[i].block <= log[i + max].block;
    assert i + max == m || log[i + max].block <= log[m].block;
  }

  lemma GrowthKeepsCheckpoint(cfg: Config, s: State, t: State, events: seq<Event>)
    requires Core(cfg, s) && t == s.(log := s.log + events) && LogOk(cfg, t)
    ensures CheckpointOk(cfg, t)
  {
    forall f | EventOk(t, f) && f.block <= t.store.lastBlockHeight ensures Done(cfg, t.trace, |t.trace|, f) {
      if f !in s.log && s.store != cfg.initial {
        var k :| 0 <= k < |s.log| && s.log[k].block == s.store.lastBlockHeight + 1;
        NewEventsAreLate(s.log, events, f);
      }
    }
    forall i, f | 0 <= i < |t.trace| && t.trace[i].Committed? && EventOk(t, f) && f.block < t.trace[i].block
      ensures Done(cfg, t.trace, i, f)
    {
      if f !in s.log {
        var k :| 0 <= k < |s.log| && s.log[k].block == s.trace[i].block;
        NewEventsAreLate(s.log, events, f);
      }
    }
    forall i | 0 <= i < |t.trace| && t.trace[i].Committed?
      ensures exists k :: 0 <= k < |t.log| && t.log[k].block == t.trace[i].block
    {
      var k :| 0 <= k < |s.log| && s.log[k].block == s.trace[i].block;
      assert t.log[k].block == t.trace[i].block;
    }
    if s.store != cfg.initial {
      var k :| 0 <= k < |s.log| && s.log[k].block == s.store.lastBlockHeight + 1;
      assert t.log[k].block == t.store.lastBlockHeight + 1;
    }
  }

  lemma GrowthKeepsQueue(cfg: Config, s: State, t: State, events: seq<Event>)
    requires Core(cfg, s) && t == s.(log := s.log + events) && LogOk(cfg, t)
    ensures QueueOk(t) && RunningOk(t) && TasksFromLog(t)
  {
    forall i, f | 0 <= i < |t.client.chain| && Active(t.client, t.client.chain[i]) &&
                  EventOk(t, f) && f.block < t.client.chain[i].event.block
      ensures AccountedBefore(t, i, f)
    {
      if f !in s.log {
        NewEventsAreLate(s.log, events, f);
      }
      assert AccountedBefore(s, i, f);
    }
    if t.client.running.Some? {
      var e := t.client.running.value.task.event;
      forall f | EventOk(t, f) && f.block <= e.block - 1 ensures f in s.log {
        if f !in s.log {
          NewEventsAreLate(s.log, events, f);
        }
      }
    }
  }

  lemma GrowthKeepsSession(cfg: Config, s: State, t: State, events: seq<Event>)
    requires Core(cfg, s) && t == s.(log := s.log + events) && LogOk(cfg, t)
    requires Cooperative(cfg) && cfg.pageLimit > 0
    ensures ConnectionOk(cfg, t) && BufferOk(t) && SubscriptionOk(t)
  {
    if t.subscription.Some? {
      var sub := t.subscription.value;
      assert t.log[sub.base..sub.next] == s.log[sub.base..sub.next];
    }
    match t.client.connection
    case AwaitPage(cursor) => GrowthKeepsCursor(cfg, s, t, cursor);
    case InPage(cursor, page, rest, _) =>
      GrowthKeepsCursor(cfg, s, t, cursor);
      assert t.log[..t.readTo] == s.log[..s.readTo];
    case Finished =>
      if t.subscription.Some? {
        forall k | 0 <= k < t.subscription.value.next && k < |t.log| && IsProcessable(t.log[k])
          ensures AccountedBefore(t, |t.client.chain|, t.log[k])
        {
          assert t.log[k] == s.log[k];
          assert AccountedBefore(s, |s.client.chain|, s.log[k]);
        }
      }
    case _ =>
  }

  lemma GrowthKeepsInv(cfg: Config, s: State, t: State, events: seq<Event>)
    requires Inv(cfg, s) && Step(cfg, s, Append(events)) == Some(t)
    requires Cooperative(cfg) && cfg.pageLimit > 0
    ensures Core(cfg, t)
  {
    GrowthKeepsCheckpoint(cfg, s, t, events);
    GrowthKeepsQueue(cfg, s, t, events);
    GrowthKeepsSession(cfg, s, t, events);
  }

  // ---------------------------------------------------------------- the catch-up

  lemma PageMembers(log: seq<Event>, cursor: int, limit: nat)
    ensures forall e :: e in Page(log, cursor, limit) ==> e in log && e.block > cursor
  {
    AfterMembers(log, cursor);
    forall e | e in Page(log, cursor, limit) ensures e in log && e.block > cursor {
      assert e in After(log, cursor);
    }
  }

  lemma FreshPageOk(cfg: Config, s: State, t: State, cursor: int)
    requires CursorOk(cfg, s, cursor) && t.log == s.log && t.store == s.store && t.readTo == |s.log|
    ensures var page := Page(s.log, cursor, cfg.pageLimit);
            PageOk(cfg, t, cursor, page, SortEventsByPosition(Processable(page)))
  {
    var page := Page(s.log, cursor, cfg.pageLimit);
    assert s.log[..|s.log|] == s.log;
    PageMembers(s.log, cursor, cfg.pageLimit);
    ProcessableMembers(page);
    SortMembers(Processable(page));
    var rest := SortEventsByPosition(Processable(page));
    forall f | f in page && IsProcessable(f) ensures RestMatches(rest, f) {
      assert f in rest;
      var k :| 0 <= k < |rest| && rest[k] == f;
      assert SameEvent(rest[k], f);
    }
    forall k | 0 <= k < |rest| ensures rest[k] in page && EventOk(t, rest[k]) {
      assert rest[k] in rest;
    }
  }

  lemma ReadKeepsInv(cfg: Config, s: State, t: State)
    requires Inv(cfg, s) && Step(cfg, s, PageRead) == Some(t)
    ensures Core(cfg, t)
  {
    ReadEffect(cfg, s, t);
    ReadPageKeepsInv(cfg, s, t);
  }

  lemma ReadEffect(cfg: Config, s: State, t: State)
    requires Step(cfg, s, PageRead) == Some(t)
    ensures s.client.connection.AwaitPage?
    ensures t == s.(client := PageArrives(s.client, Page(s.log, s.client.connection.cursor, cfg.pageLimit)), readTo := |s.log|)
  {
  }

  lemma ReadPageKeepsInv(cfg: Config, s: State, t: State)
    requires Core(cfg, s) && s.client.connection.AwaitPage?
    requires t == s.(client := PageArrives(s.client, Page(s.log, s.client.connection.cursor, cfg.pageLimit)), readTo := |s.log|)
    ensures Core(cfg, t)
  {
    FreshPageOk(cfg, s, t, s.client.connection.cursor);
    WorkFrame(cfg, s, t);
  }

  lemma SliceOfTake<T>(s: seq<T>, n: nat, from: nat, to: nat)
    requires from <= to <= n <= |s|
    ensures s[..n][from..to] == s[from..to]
  {
  }

  /** The stretch of the log that a page is. */
  lemma PageWindow(log: seq<Event>, readTo: nat, cursor: int, limit: nat) returns (from: nat, to: nat)
    requires BlockSorted(log) && readTo <= |log|
    ensures from <= to <= readTo && (to == from + limit || to == readTo)
    ensures Page(log[..readTo], cursor, limit) == log[from..to]
    ensures forall i :: 0 <= i < from ==> log[i].block <= cursor
    ensures forall i :: from <= i < readTo ==> log[i].block > cursor
  {
    var seen := log[..readTo];
    PageSlice(seen, cursor, limit);
    from, to := StartIndex(seen, cursor), EndIndex(seen, cursor, limit);
    SliceOfTake(log, readTo, from, to);
    forall i | 0 <= i < from ensures log[i].block <= cursor {
      assert log[i] == seen[i];
    }
    forall i | from <= i < readTo ensures log[i].block > cursor {
      assert log[i] == seen[i];
    }
  }

  /** Between the cursor and an event of the page, the page has every event of the log. */
  lemma PageIsDownwardClosed(log: seq<Event>, readTo: nat, cursor: int, limit: nat, f: Event, g: Event)
    requires BlockSorted(log) && readTo <= |log|
    requires f in log && cursor < f.block < g.block && g in Page(log[..readTo], cursor, limit)
    ensures f in Page(log[..readTo], cursor, limit)
  {
    var from, to := PageWindow(log, readTo, cursor, limit);
    var page := log[from..to];
    var n :| 0 <= n < |page| && page[n] == g;
    var m :| 0 <= m < |log| && log[m] == f;
    assert log[from + n] == g;
    assert m < from + n;
    assert page[m - from] == f;
  }

  /** Below the next event of a page, everything is stored. */
  lemma BelowHeadIsCovered(cfg: Config, s: State, cursor: int, page: seq<Event>, rest: seq<Event>)
    requires LogOk(cfg, s) && PageOk(cfg, s, cursor, page, rest) && rest != []
    ensures CoveredUpTo(s, rest[0].block - 1)
  {
    assert forall k :: 0 <= k < |rest| ==> rest[0].block <= rest[k].block;
    forall f | EventOk(s, f) && f.block < rest[0].block ensures Covered(s.store, f) {
      if f.block > cursor {
        PageIsDownwardClosed(s.log, s.readTo, cursor, cfg.pageLimit, f, rest[0]);
      }
    }
  }

  lemma SubmitKeepsInv(cfg: Config, s: State, t: State)
    requires Inv(cfg, s) && Step(cfg, s, NextEvent) == Some(t)
    ensures Core(cfg, t)
  {
    SubmitEffect(cfg, s, t);
    SubmittedEventKeepsInv(cfg, s, t);
  }

  lemma SubmitEffect(cfg: Config, s: State, t: State)
    requires Step(cfg, s, NextEvent) == Some(t)
    ensures s.client.connection.InPage? && !s.client.connection.submitted && s.client.connection.rest != []
    ensures t == s.(client := SubmitEvent(s.client))
  {
  }

  lemma SubmittedEventKeepsInv(cfg: Config, s: State, t: State)
    requires Core(cfg, s)
    requires s.client.connection.InPage? && !s.client.connection.submitted && s.client.connection.rest != []
    requires t == s.(client := SubmitEvent(s.client))
    ensures Core(cfg, t)
  {
    var c, d := s.client, t.client;
    var n := |c.chain|;
    BelowHeadIsCovered(cfg, s, c.connection.cursor, c.connection.page, c.connection.rest);
    assert forall i :: 0 <= i < n ==> d.chain[i] == c.chain[i] && !Active(d, d.chain[i]);
    assert d.chain[n] == Task(c.connection.rest[0], c.generation, Rest);
    assert QueueOk(t);
    PageFrame(cfg, s, t);
    assert OnlyRestTask(d, c.connection.rest[0]);
  }

  /** Once a page is worked off, everything up to the next cursor is stored for good. */
  lemma NextCursorOk(cfg: Config, s: State, cursor: int, page: seq<Event>)
    requires LogOk(cfg, s) && Cooperative(cfg) && cfg.pageLimit > 0
    requires PageOk(cfg, s, cursor, page, [])
    requires !NextRestCursor(page, cursor, cfg.pageLimit).done
    ensures CursorOk(cfg, s, NextRestCursor(page, cursor, cfg.pageLimit).cursor)
  {
    var next := NextRestCursor(page, cursor, cfg.pageLimit);
    PageMembers(s.log[..s.readTo], cursor, cfg.pageLimit);
    CursorProgress(page, cursor, cfg.pageLimit);
    if next.blockExceedsPage {
      FullPageCursorOk(cfg, s, cursor, page);
    } else {
      var g :| g in page && g.block == next.cursor + 1;
      forall f | EventOk(s, f) && f.block <= next.cursor ensures Covered(s.store, f) {
        if f.block > cursor {
          PageIsDownwardClosed(s.log, s.readTo, cursor, cfg.pageLimit, f, g);
        }
      }
      assert g in s.log;
      var k :| 0 <= k < |s.log| && s.log[k] == g;
      assert s.log[k].block > next.cursor;
    }
  }

  /** A page that one block fills holds that whole block. */
  lemma FullPageCursorOk(cfg: Config, s: State, cursor: int, page: seq<Event>)
    requires LogOk(cfg, s) && Cooperative(cfg) && cfg.pageLimit > 0
    requires PageOk(cfg, s, cursor, page, [])
    requires |page| >= cfg.pageLimit && forall e :: e in page ==> e.block == cursor + 1
    ensures CursorOk(cfg, s, cursor + 1)
  {
    var from, to := PageWindow(s.log, s.readTo, cursor, cfg.pageLimit);
    assert page[0] in page && page[|page| - 1] in page;
    assert s.log[from] == page[0] && s.log[to - 1] == page[|page| - 1];
    assert CursorClosed(cfg, s, cursor + 1);
    forall f | EventOk(s, f) && f.block <= cursor + 1 ensures Covered(s.store, f) {
      if f.block > cursor && f !in page {
        FullPageHoldsBlock(cfg, s.log, s.readTo, cursor, from, to, f);
      }
    }
  }

  lemma FullPageHoldsBlock(cfg: Config, log: seq<Event>, readTo: nat, cursor: int, from: nat, to: nat, f: Event)
    requires BlockSorted(log) && BlocksAtMost(log, cfg.maxBlockEvents) && Cooperative(cfg)
    requires from + cfg.pageLimit == to <= |log| && 0 < cfg.pageLimit && log[from].block == cursor + 1
    requires forall i :: 0 <= i < from ==> log[i].block <= cursor
    requires f in log && f.block == cursor + 1
    ensures f in log[from..to]
  {
    var m :| 0 <= m < |log| && log[m] == f;
    if m >= to {
      FullBlockIsClosed(log, cfg.maxBlockEvents, cfg.pageLimit, from, m);
    } else {
      assert log[from..to][m - from] == f;
    }
  }

  /** A worked-off short page: everything that was in the log when it was read is stored. */
  lemma ShortPageCoversLog(cfg: Config, s: State, cursor: int, page: seq<Event>)
    requires LogOk(cfg, s) && PageOk(cfg, s, cursor, page, []) && |page| < cfg.pageLimit
    ensures forall k :: 0 <= k < s.readTo && IsProcessable(s.log[k]) ==> Covered(s.store, s.log[k])
  {
    var from, to := PageWindow(s.log, s.readTo, cursor, cfg.pageLimit);
    forall k | 0 <= k < s.readTo && IsProcessable(s.log[k]) ensures Covered(s.store, s.log[k]) {
      if k >= from {
        assert page[k - from] == s.log[k];
      } else {
        assert s.log[k] in s.log;
      }
    }
  }

  lemma TurnPageKeepsInv(cfg: Config, s: State, t: State)
    requires Inv(cfg, s) && Step(cfg, s, PageDone) == Some(t)
    requires Cooperative(cfg) && cfg.pageLimit > 0
    requires !NextRestCursor(s.client.connection.page, s.client.connection.cursor, cfg.pageLimit).done
    ensures Core(cfg, t)
  {
    TurnPageEffect(cfg, s, t);
    NextPageKeepsInv(cfg, s, t);
  }

  lemma TurnPageEffect(cfg: Config, s: State, t: State)
    requires Step(cfg, s, PageDone) == Some(t)
    requires !NextRestCursor(s.client.connection.page, s.client.connection.cursor, cfg.pageLimit).done
    ensures var c := s.client.connection;
            && c.InPage? && !c.submitted && c.rest == []
            && t == s.(client := s.client.(connection := AwaitPage(NextRestCursor(c.page, c.cursor, cfg.pageLimit).cursor)))
  {
  }

  lemma NextPageKeepsInv(cfg: Config, s: State, t: State)
    requires Core(cfg, s) && Cooperative(cfg) && cfg.pageLimit > 0
    requires s.client.connection.InPage? && !s.client.connection.submitted && s.client.connection.rest == []
    requires var c := s.client.connection;
             && !NextRestCursor(c.page, c.cursor, cfg.pageLimit).done
             && t == s.(client := s.client.(connection := AwaitPage(NextRestCursor(c.page, c.cursor, cfg.pageLimit).cursor)))
    ensures Core(cfg, t)
  {
    var c := s.client.connection;
    assert PageOk(cfg, s, c.cursor, c.page, []);
    NextCursorOk(cfg, s, c.cursor, c.page);
    TurnedPageKeepsInv(cfg, s, t, NextRestCursor(c.page, c.cursor, cfg.pageLimit).cursor);
  }

  lemma TurnedPageKeepsInv(cfg: Config, s: State, t: State, cursor: int)
    requires Core(cfg, s) && s.client.connection.InPage? && NoActiveTask(s.client)
    requires t == s.(client := s.client.(connection := AwaitPage(cursor))) && CursorOk(cfg, s, cursor)
    ensures Core(cfg, t)
  {
    WorkFrame(cfg, s, t);
    assert CursorOk(cfg, t, cursor);
  }

  // ---------------------------------------------------------------- going live, and live delivery

  lemma {:induction false} ProcessableKeepsOrder(es: seq<Event>)
    requires BlockSorted(es)
    ensures BlockSorted(Processable(es))
  {
    if es != [] {
      ProcessableKeepsOrder(es[1..]);
      ProcessableMembers(es[1..]);
      var rest := Processable(es[1..]);
      forall i | 0 <= i < |rest| ensures es[0].block <= rest[i].block {
        assert rest[i] in es[1..];
        var k :| 0 <= k < |es[1..]| && es[1..][k] == rest[i];
        assert es[k + 1] == rest[i];
      }
    }
  }

  /** `batch` holds exactly the processable events of `log[from..to]`, in block order. */
  ghost predicate IsBatch(log: seq<Event>, from: nat, to: nat, batch: seq<Event>)
    requires from <= to <= |log|
  {
    && BlockSorted(batch)
    && forall e :: e in batch <==> e in log[from..to] && IsProcessable(e)
  }

  /** Everything delivered or read before `from` is accounted for, so the batch may queue up behind. */
  lemma BatchAccounts(s: State, t: State, from: nat, to: nat, batch: seq<Event>, n: nat, f: Event)
    requires BlockSorted(s.log) && from <= to <= |s.log| && IsBatch(s.log, from, to, batch) && n <= |batch|
    requires t.log == s.log && t.store == s.store && t.client.running == s.client.running
    requires t.client.generation == s.client.generation && t.client.stopped == s.client.stopped && !s.client.stopped
    requires t.client.chain == s.client.chain + LiveTasks(batch, s.client.generation)
    requires EventOk(s, f)
    requires forall k :: 0 <= k < from && IsProcessable(s.log[k]) ==> AccountedBefore(s, |s.client.chain|, s.log[k])
    requires if n < |batch| then f.block < batch[n].block else f in s.log[..to]
    ensures AccountedBefore(t, |s.client.chain| + n, f)
  {
    var c, d := s.client, t.client;
    var m :| 0 <= m < |s.log| && s.log[m] == f;
    if n < |batch| {
      var e := batch[n];
      assert e in batch;
      var k :| 0 <= k < |s.log[from..to]| && s.log[from..to][k] == e;
      assert s.log[from + k] == e;
      assert m < from + k;
    } else {
      m :| 0 <= m < |s.log[..to]| && s.log[..to][m] == f;
    }
    if m < from {
      assert AccountedBefore(s, |c.chain|, f);
      if !Covered(s.store, f) && !RunningMatches(c, f) {
        var j :| 0 <= j < |c.chain| && Active(c, c.chain[j]) && SameEvent(c.chain[j].event, f);
        assert d.chain[j] == c.chain[j];
      }
    } else {
      assert s.log[from..to][m - from] == f;
      assert f in batch;
      var j :| 0 <= j < |batch| && batch[j] == f;
      assert d.chain[|c.chain| + j] == LiveTasks(batch, c.generation)[j];
    }
  }

  /** An event below a queued one is in line before it. */
  lemma BatchKeepsPosition(s: State, t: State, from: nat, to: nat, batch: seq<Event>, i: nat, f: Event)
    requires BlockSorted(s.log) && from <= to <= |s.log| && IsBatch(s.log, from, to, batch)
    requires t.log == s.log && t.store == s.store && t.client.running == s.client.running
    requires t.client.generation == s.client.generation && t.client.stopped == s.client.stopped && !s.client.stopped
    requires t.client.chain == s.client.chain + LiveTasks(batch, s.client.generation)
    requires forall k :: 0 <= k < from && IsProcessable(s.log[k]) ==> AccountedBefore(s, |s.client.chain|, s.log[k])
    requires QueueOk(s) && EventOk(s, f)
    requires i < |t.client.chain| && Active(t.client, t.client.chain[i]) && f.block < t.client.chain[i].event.block
    ensures AccountedBefore(t, i, f)
  {
    var c, d := s.client, t.client;
    if i < |c.chain| {
      assert d.chain[i] == c.chain[i];
      assert AccountedBefore(s, i, f);
      if !Covered(s.store, f) && !RunningMatches(c, f) {
        var j :| 0 <= j < i && Active(c, c.chain[j]) && SameEvent(c.chain[j].event, f);
        assert d.chain[j] == c.chain[j];
      }
    } else {
      assert d.chain[i].event == batch[i - |c.chain|];
      BatchAccounts(s, t, from, to, batch, i - |c.chain|, f);
    }
  }

  lemma BatchIsAccounted(s: State, t: State, from: nat, to: nat, batch: seq<Event>)
    requires BlockSorted(s.log) && from <= to <= |s.log| && IsBatch(s.log, from, to, batch)
    requires t.log == s.log && t.store == s.store && t.client.running == s.client.running
    requires t.client.generation == s.client.generation && t.client.stopped == s.client.stopped && !s.client.stopped
    requires t.client.chain == s.client.chain + LiveTasks(batch, s.client.generation)
    requires forall k :: 0 <= k < from && IsProcessable(s.log[k]) ==> AccountedBefore(s, |s.client.chain|, s.log[k])
    ensures forall k :: 0 <= k < to && IsProcessable(s.log[k]) ==> AccountedBefore(t, |t.client.chain|, s.log[k])
  {
    forall k | 0 <= k < to && IsProcessable(s.log[k]) ensures AccountedBefore(t, |t.client.chain|, s.log[k]) {
      assert s.log[..to][k] == s.log[k];
      BatchAccounts(s, t, from, to, batch, |batch|, s.log[k]);
    }
  }

  /** A batch of live tasks at the end of the queue keeps the queue in order. */
  lemma BatchKeepsQueue(s: State, t: State, from: nat, to: nat, batch: seq<Event>)
    requires BlockSorted(s.log) && from <= to <= |s.log| && IsBatch(s.log, from, to, batch)
    requires t.log == s.log && t.store == s.store && t.client.running == s.client.running
    requires t.client.generation == s.client.generation && t.client.stopped == s.client.stopped && !s.client.stopped
    requires t.client.chain == s.client.chain + LiveTasks(batch, s.client.generation)
    requires forall k :: 0 <= k < from && IsProcessable(s.log[k]) ==> AccountedBefore(s, |s.client.chain|, s.log[k])
    requires QueueOk(s) && TasksFromLog(s)
    ensures QueueOk(t) && TasksFromLog(t)
    ensures forall k :: 0 <= k < to && IsProcessable(s.log[k]) ==> AccountedBefore(t, |t.client.chain|, s.log[k])
  {
    var c, d := s.client, t.client;
    forall i | |c.chain| <= i < |d.chain| ensures EventOk(t, d.chain[i].event) {
      assert d.chain[i].event == batch[i - |c.chain|];
      assert batch[i - |c.chain|] in batch;
    }
    forall i, f | 0 <= i < |d.chain| && Active(d, d.chain[i]) && EventOk(t, f) && f.block < d.chain[i].event.block
      ensures AccountedBefore(t, i, f)
    {
      assert EventOk(s, f);
      BatchKeepsPosition(s, t, from, to, batch, i, f);
    }
    BatchIsAccounted(s, t, from, to, batch);
  }

  lemma LiveTasksKeepClientOk(c: Client, d: Client, batch: seq<Event>)
    requires ClientOk(c) && !c.stopped && (NoActiveTask(c) || c.connection.Finished?)
    requires d.connection == Finished && !d.syncing && d.running == c.running && d.socket == c.socket
    requires d.generation == c.generation && d.stopped == c.stopped
    requires d.chain == c.chain + LiveTasks(batch, c.generation)
    ensures ClientOk(d)
  {
    forall i | 0 <= i < |d.chain| && Active(d, d.chain[i]) ensures d.chain[i].kind == Live {
      if i < |c.chain| {
        assert d.chain[i] == c.chain[i];
      }
    }
  }

  lemma GoLiveKeepsInv(cfg: Config, s: State, t: State)
    requires Inv(cfg, s) && Step(cfg, s, PageDone) == Some(t)
    requires NextRestCursor(s.client.connection.page, s.client.connection.cursor, cfg.pageLimit).done
    ensures Core(cfg, t)
  {
    GoLiveEffect(cfg, s, t);
    var sub, batch := BufferIsBatch(cfg, s);
    WentLiveKeepsInv(cfg, s, t, sub, batch);
  }

  lemma GoLiveEffect(cfg: Config, s: State, t: State)
    requires Step(cfg, s, PageDone) == Some(t)
    requires NextRestCursor(s.client.connection.page, s.client.connection.cursor, cfg.pageLimit).done
    ensures s.client.connection.InPage? && !s.client.connection.submitted && s.client.connection.rest == []
    ensures t == s.(client := GoLive(s.client))
  {
  }

  /** The buffer, in position order, is what was delivered since the subscription became active. */
  lemma BufferIsBatch(cfg: Config, s: State) returns (sub: Subscription, batch: seq<Event>)
    requires Core(cfg, s) && s.client.connection.InPage?
    ensures s.subscription == Some(sub) && sub.base <= sub.next <= |s.log| && sub.base <= s.readTo
    ensures batch == SortEventsByPosition(s.client.syncBuffer) && IsBatch(s.log, sub.base, sub.next, batch)
  {
    sub, batch := s.subscription.value, SortEventsByPosition(s.client.syncBuffer);
    ProcessableMembers(s.log[sub.base..sub.next]);
    SortMembers(s.client.syncBuffer);
    SortIsStableSort(s.client.syncBuffer);
    PositionSortedIsBlockSorted(batch);
  }

  lemma WentLiveKeepsInv(cfg: Config, s: State, t: State, sub: Subscription, batch: seq<Event>)
    requires Core(cfg, s)
    requires s.client.connection.InPage? && !s.client.connection.submitted && s.client.connection.rest == []
    requires NextRestCursor(s.client.connection.page, s.client.connection.cursor, cfg.pageLimit).done
    requires t == s.(client := GoLive(s.client))
    requires s.subscription == Some(sub) && sub.base <= sub.next <= |s.log| && sub.base <= s.readTo
    requires batch == SortEventsByPosition(s.client.syncBuffer) && IsBatch(s.log, sub.base, sub.next, batch)
    ensures Core(cfg, t)
  {
    ShortPageCoversLog(cfg, s, s.client.connection.cursor, s.client.connection.page);
    BatchKeepsQueue(s, t, sub.base, sub.next, batch);
    LiveTasksKeepClientOk(s.client, t.client, batch);
  }

  lemma {:induction false} LiveBlockIsQueued(c: Client, events: seq<Event>)
    requires !c.syncing
    ensures HandleBlock(c, events) == c.(chain := c.chain + LiveTasks(Processable(events), c.generation))
    decreases |events|
  {
    if events == [] {
      assert c.chain + LiveTasks([], c.generation) == c.chain;
    } else {
      var next := if IsProcessable(events[0]) then EnqueueLive(c, events[0]) else c;
      LiveBlockIsQueued(next, events[1..]);
      if IsProcessable(events[0]) {
        var rest := Processable(events[1..]);
        assert Processable(events) == [events[0]] + rest;
        assert LiveTasks([events[0]] + rest, c.generation) ==
               [Task(events[0], c.generation, Live)] + LiveTasks(rest, c.generation);
        assert c.chain + ([Task(events[0], c.generation, Live)] + LiveTasks(rest, c.generation)) ==
               next.chain + LiveTasks(rest, c.generation);
      } else {
        assert Processable(events) == Processable(events[1..]);
      }
    }
  }

  lemma AppendThen<T>(s: seq<T>, x: T, rest: seq<T>)
    ensures (s + [x]) + rest == s + ([x] + rest)
  {
  }

  /** While syncing, a message that fits ends up in the buffer whole. */
  lemma {:induction false} FittingBlockIsBuffered(c: Client, events: seq<Event>)
    requires c.syncing && (Processable(events) == [] || |c.syncBuffer| + |Processable(events)| <= MAX_SYNC_BUFFER)
    ensures HandleBlock(c, events) == c.(syncBuffer := c.syncBuffer + Processable(events))
    decreases |events|
  {
    if events == [] {
      assert c.syncBuffer + [] == c.syncBuffer;
    } else if !IsProcessable(events[0]) {
      FittingBlockIsBuffered(c, events[1..]);
      assert Processable(events) == Processable(events[1..]);
    } else {
      var rest := Processable(events[1..]);
      assert Processable(events) == [events[0]] + rest;
      FittingBlockIsBuffered(c.(syncBuffer := c.syncBuffer + [events[0]]), events[1..]);
      AppendThen(c.syncBuffer, events[0], rest);
    }
  }

  /** While syncing, a message that does not fit ends the session. */
  lemma {:induction false} OverflowGivesUp(c: Client, events: seq<Event>)
    requires c.syncing && Processable(events) != [] && |c.syncBuffer| + |Processable(events)| > MAX_SYNC_BUFFER
    ensures var d := HandleBlock(c, events); d == ForceReconnect(c.(syncBuffer := d.syncBuffer))
    decreases |events|
  {
    if events == [] {
    } else if !IsProcessable(events[0]) {
      OverflowGivesUp(c, events[1..]);
      assert Processable(events) == Processable(events[1..]);
    } else if |c.syncBuffer| < MAX_SYNC_BUFFER {
      assert Processable(events) == [events[0]] + Processable(events[1..]);
      OverflowGivesUp(c.(syncBuffer := c.syncBuffer + [events[0]]), events[1..]);
    }
  }

  lemma LiveDeliveryKeepsInv(cfg: Config, s: State, count: nat, t: State)
    requires Inv(cfg, s) && Step(cfg, s, Deliver(count)) == Some(t)
    requires s.client.connection.Finished?
    ensures Core(cfg, t)
  {
    var c, d := s.client, t.client;
    var from, to := s.subscription.value.next, t.subscription.value.next;
    var events := s.log[from..to];
    LiveBlockIsQueued(c, events);
    ProcessableMembers(events);
    ProcessableKeepsOrder(events);
    BatchKeepsQueue(s, t, from, to, Processable(events));
    LiveTasksKeepClientOk(c, d, Processable(events));
  }

  lemma BufferedDeliveryKeepsInv(cfg: Config, s: State, count: nat, t: State)
    requires Inv(cfg, s) && s.client.socket == Open && !s.client.connection.Finished?
    requires s.subscription.Some? && s.subscription.value.next + count <= |s.log|
    requires var sub := s.subscription.value;
             t == s.(client := s.client.(syncBuffer := s.client.syncBuffer + Processable(s.log[sub.next..sub.next + count])),
                     subscription := Some(sub.(next := sub.next + count)))
    ensures Core(cfg, t)
  {
    WorkFrame(cfg, s, t);
    PageFrame(cfg, s, t);
    BufferExtends(s, t, count);
  }

  lemma BufferExtends(s: State, t: State, count: nat)
    requires BufferOk(s) && SubscriptionOk(s)
    requires s.subscription.Some? && s.subscription.value.next + count <= |s.log|
    requires var sub := s.subscription.value;
             t == s.(client := s.client.(syncBuffer := s.client.syncBuffer + Processable(s.log[sub.next..sub.next + count])),
                     subscription := Some(sub.(next := sub.next + count)))
    ensures BufferOk(t)
  {
    var sub := s.subscription.value;
    if Buffering(s.client) {
      SliceExtends(s.log, sub.base, sub.next, sub.next + count);
    }
  }

  lemma SliceExtends(log: seq<Event>, from: nat, mid: nat, to: nat)
    requires from <= mid <= to <= |log|
    ensures Processable(log[from..to]) == Processable(log[from..mid]) + Processable(log[mid..to])
  {
    assert log[from..mid] + log[mid..to] == log[from..to];
    ProcessableConcat(log[from..mid], log[mid..to]);
  }

  lemma OverflowKeepsInv(cfg: Config, s: State, events: seq<Event>, t: State)
    requires Inv(cfg, s) && s.client.syncing
    requires Processable(events) != [] && |s.client.syncBuffer| + |Processable(events)| > MAX_SYNC_BUFFER
    requires t == s.(client := HandleBlock(s.client, events), subscription := t.subscription)
    requires s.subscription.Some? && t.subscription.Some? && SubscriptionOk(t)
    ensures Core(cfg, t)
  {
    OverflowGivesUp(s.client, events);
    OldGenerationsInactive(s, t.client);
    QuietStep(cfg, s, t);
  }

  lemma DeliverEffect(cfg: Config, s: State, count: nat, t: State)
    requires Step(cfg, s, Deliver(count)) == Some(t)
    ensures s.client.socket == Open && s.subscription.Some? && s.subscription.value.next + count <= |s.log|
    ensures var sub := s.subscription.value;
            t == s.(client := HandleBlock(s.client, s.log[sub.next..sub.next + count]),
                    subscription := Some(sub.(next := sub.next + count)))
  {
  }

  lemma SyncDeliveryKeepsInv(cfg: Config, s: State, count: nat, t: State)
    requires Inv(cfg, s) && Step(cfg, s, Deliver(count)) == Some(t)
    requires !s.client.connection.Finished?
    ensures Core(cfg, t)
  {
    DeliverEffect(cfg, s, count, t);
    BufferingDeliveryKeepsInv(cfg, s, count, t);
  }

  lemma BufferingDeliveryKeepsInv(cfg: Config, s: State, count: nat, t: State)
    requires Inv(cfg, s) && !s.client.connection.Finished?
    requires s.client.socket == Open && s.subscription.Some? && s.subscription.value.next + count <= |s.log|
    requires var sub := s.subscription.value;
             t == s.(client := HandleBlock(s.client, s.log[sub.next..sub.next + count]),
                     subscription := Some(sub.(next := sub.next + count)))
    ensures Core(cfg, t)
  {
    var next := s.subscription.value.next;
    var events := s.log[next..next + count];
    assert s.client.syncing;
    if Processable(events) == [] || |s.client.syncBuffer| + |Processable(events)| <= MAX_SYNC_BUFFER {
      FittingBlockIsBuffered(s.client, events);
      BufferedDeliveryKeepsInv(cfg, s, count, t);
    } else {
      OverflowGivesUp(s.client, events);
      OverflowKeepsInv(cfg, s, events, t);
    }
  }

  // ---------------------------------------------------------------- every step, every run

  /** Steps that end a session or open a new one. */
  lemma SessionStepKeepsInv(cfg: Config, s: State, a: Action, t: State)
    requires Inv(cfg, s) && Step(cfg, s, a) == Some(t)
    requires a.Start? || a.StopService? || a.RestartProcess? || a.ReconnectTimer? ||
             a.SubscribeAbandoned? || a.PageFails? || a.ReportCatchUpFailure? || a.WatchdogFires?
    ensures Core(cfg, t)
  {
    if !a.SubscribeAbandoned? && !a.PageFails? && !a.RestartProcess? {
      OldGenerationsInactive(s, t.client);
    }
    QuietStep(cfg, s, t);
  }

  lemma ActivateKeepsInv(cfg: Config, s: State, t: State)
    requires Inv(cfg, s) && Step(cfg, s, Activate) == Some(t)
    ensures Core(cfg, t)
  {
    WorkFrame(cfg, s, t);
    assert s.log[|s.log|..|s.log|] == [];
  }

  lemma CloseKeepsInv(cfg: Config, s: State, t: State)
    requires Inv(cfg, s) && Step(cfg, s, CloseSocket) == Some(t)
    ensures Core(cfg, t)
  {
    var c, d := s.client, t.client;
    if c.connection == AwaitSubscribed {
      QuietStep(cfg, s, t);
    } else {
      assert d == c.(socket := Closed, phase := Connecting,
                     reconnectTimer := d.reconnectTimer, reconnectAttempt := d.reconnectAttempt);
      SocketFieldsOnly(cfg, s, t);
    }
  }

  lemma SocketFieldsOnly(cfg: Config, s: State, t: State)
    requires Inv(cfg, s) && s.client.socket == Open && (t.client.socket == Open || t.client.socket == Closed)
    requires t == s.(client := s.client.(socket := t.client.socket, phase := t.client.phase,
                     reconnectTimer := t.client.reconnectTimer, reconnectAttempt := t.client.reconnectAttempt))
    ensures Core(cfg, t)
  {
    WorkFrame(cfg, s, t);
    QueueFrame(s, t);
    PageFrame(cfg, s, t);
  }

  lemma AcknowledgeKeepsInv(cfg: Config, s: State, t: State)
    requires Inv(cfg, s) && Step(cfg, s, Acknowledged) == Some(t)
    ensures Core(cfg, t)
  {
    WorkFrame(cfg, s, t);
  }

  lemma LoadCursorKeepsInv(cfg: Config, s: State, t: State)
    requires Inv(cfg, s) && Step(cfg, s, CursorLoaded) == Some(t)
    ensures Core(cfg, t)
  {
    WorkFrame(cfg, s, t);
  }

  lemma FailureKeepsInv(cfg: Config, s: State, t: State)
    requires Inv(cfg, s) && IndexerSafety.Inv(t) && Step(cfg, s, TaskFails) == Some(t)
    ensures Core(cfg, t)
  {
    if Active(s.client, s.client.running.value.task) {
      if s.client.running.value.task.kind == Live {
        LiveFailureKeepsInv(cfg, s, t);
      } else {
        RestFailureKeepsInv(cfg, s, t);
      }
    } else {
      StaleFailureKeepsInv(cfg, s, t);
    }
  }

  lemma PageDoneKeepsInv(cfg: Config, s: State, t: State)
    requires ValidConfig(cfg) && Cooperative(cfg)
    requires Inv(cfg, s) && Step(cfg, s, PageDone) == Some(t)
    ensures Core(cfg, t)
  {
    if NextRestCursor(s.client.connection.page, s.client.connection.cursor, cfg.pageLimit).done {
      GoLiveKeepsInv(cfg, s, t);
    } else {
      TurnPageKeepsInv(cfg, s, t);
    }
  }

  lemma DeliveryKeepsInv(cfg: Config, s: State, count: nat, t: State)
    requires Inv(cfg, s) && Step(cfg, s, Deliver(count)) == Some(t)
    ensures Core(cfg, t)
  {
    if s.client.connection.Finished? {
      LiveDeliveryKeepsInv(cfg, s, count, t);
    } else {
      SyncDeliveryKeepsInv(cfg, s, count, t);
    }
  }

  /** Every step keeps the invariant; the safety half holds for any indexer. */
  lemma StepKeepsInv(cfg: Config, s: State, a: Action, t: State)
    requires ValidConfig(cfg) && Cooperative(cfg)
    requires Inv(cfg, s) && Step(cfg, s, a) == Some(t)
    ensures Inv(cfg, t)
  {
    IndexerSafety.StepKeepsInv(cfg, s, a, t);
    StepKeepsCore(cfg, s, a, t);
  }

  predicate IsTaskStep(a: Action) {
    a.TaskStarts? || a.TaskLoads? || a.TaskFetches? || a.TaskSaves? || a.TaskEnds? || a.TaskFails?
  }

  predicate IsCatchUpStep(a: Action) {
    a.Acknowledged? || a.CursorLoaded? || a.PageRead? || a.NextEvent? || a.PageDone?
  }

  lemma TaskStepKeepsCore(cfg: Config, s: State, a: Action, t: State)
    requires Inv(cfg, s) && IndexerSafety.Inv(t) && Step(cfg, s, a) == Some(t) && IsTaskStep(a)
    ensures Core(cfg, t)
  {
    match a
    case TaskStarts => StartKeepsInv(cfg, s, t);
    case TaskLoads => LoadKeepsInv(cfg, s, t);
    case TaskFetches => FetchKeepsInv(cfg, s, t);
    case TaskSaves => SaveKeepsInv(cfg, s, t);
    case TaskEnds => ReturnKeepsInv(cfg, s, t);
    case TaskFails => FailureKeepsInv(cfg, s, t);
  }

  lemma CatchUpStepKeepsCore(cfg: Config, s: State, a: Action, t: State)
    requires ValidConfig(cfg) && Cooperative(cfg)
    requires Inv(cfg, s) && Step(cfg, s, a) == Some(t) && IsCatchUpStep(a)
    ensures Core(cfg, t)
  {
    match a
    case Acknowledged => AcknowledgeKeepsInv(cfg, s, t);
    case CursorLoaded => LoadCursorKeepsInv(cfg, s, t);
    case PageRead => ReadKeepsInv(cfg, s, t);
    case NextEvent => SubmitKeepsInv(cfg, s, t);
    case PageDone => PageDoneKeepsInv(cfg, s, t);
  }

  lemma StepKeepsCore(cfg: Config, s: State, a: Action, t: State)
    requires ValidConfig(cfg) && Cooperative(cfg) && IndexerSafety.Inv(t)
    requires Inv(cfg, s) && Step(cfg, s, a) == Some(t)
    ensures Core(cfg, t)
  {
    if IsTaskStep(a) {
      TaskStepKeepsCore(cfg, s, a, t);
    } else if IsCatchUpStep(a) {
      CatchUpStepKeepsCore(cfg, s, a, t);
    } else {
      OuterStepKeepsCore(cfg, s, a, t);
    }
  }

  /** The steps of the server: the log grows, the subscription becomes active, a block is delivered. */
  lemma ServerStepKeepsCore(cfg: Config, s: State, a: Action, t: State)
    requires ValidConfig(cfg) && Cooperative(cfg)
    requires Inv(cfg, s) && Step(cfg, s, a) == Some(t) && (a.Append? || a.Deliver? || a.Activate?)
    ensures Core(cfg, t)
  {
    match a
    case Append(events) => GrowthKeepsInv(cfg, s, t, events);
    case Deliver(count) => DeliveryKeepsInv(cfg, s, count, t);
    case Activate => ActivateKeepsInv(cfg, s, t);
  }

  /** Without a time-out of the acknowledgement, that step is not enabled. */
  lemma NeverTimesOut(cfg: Config, s: State)
    requires Cooperative(cfg)
    ensures Step(cfg, s, SubscribeTimedOut) == None
  {
  }

  lemma OuterStepKeepsCore(cfg: Config, s: State, a: Action, t: State)
    requires ValidConfig(cfg) && Cooperative(cfg)
    requires Inv(cfg, s) && Step(cfg, s, a) == Some(t) && !IsTaskStep(a) && !IsCatchUpStep(a)
    ensures Core(cfg, t)
  {
    NeverTimesOut(cfg, s);
    if a.Append? || a.Deliver? || a.Activate? {
      ServerStepKeepsCore(cfg, s, a, t);
    } else if a.Ready? {
      SocketFieldsOnly(cfg, s, t);
    } else if a.CloseSocket? {
      CloseKeepsInv(cfg, s, t);
    } else if !a.SubscribeTimedOut? {
      SessionStepKeepsInv(cfg, s, a, t);
    }
  }

  lemma {:induction false} RunKeepsInv(cfg: Config, actions: seq<Action>)
    requires ValidConfig(cfg) && Cooperative(cfg)
    ensures Run(cfg, actions).Some? ==> Inv(cfg, Run(cfg, actions).value)
  {
    if actions != [] {
      var before := actions[..|actions| - 1];
      RunKeepsInv(cfg, before);
      if Run(cfg, actions).Some? {
        StepKeepsInv(cfg, Run(cfg, before).value, actions[|actions| - 1], Run(cfg, actions).value);
      }
    }
  }

  /**
   * With a cooperative indexer, in every reachable state: everything processable up to the stored
   * height is committed (or was in the first checkpoint), and no commit jumped over an event of a
   * lower block.
   */
  lemma StoredHeightIsTruthful(cfg: Config, s: State)
    requires ValidConfig(cfg) && Cooperative(cfg) && Reachable(cfg, s)
    ensures GapFree(cfg, s) && NoCommitJumps(cfg, s)
  {
    var actions :| Run(cfg, actions) == Some(s);
    RunKeepsInv(cfg, actions);
  }

  /** Every commit is that of an indexer event of the log, with a block and a sender. */
  ghost predicate CommitsNamed(s: State) {
    forall i :: 0 <= i < |s.trace| && s.trace[i].Committed? ==>
      exists e :: e in s.log && e.kind == "indexer-event" && e.block > 0 && e.sender != "" &&
        e.block == s.trace[i].block && EventKey(e) == s.trace[i].key
  }

  lemma StepKeepsCommitsNamed(cfg: Config, s: State, a: Action, t: State)
    requires TasksFromLog(s) && CommitsNamed(s) && Step(cfg, s, a) == Some(t)
    ensures CommitsNamed(t)
  {
    forall i | 0 <= i < |t.trace| && t.trace[i].Committed?
      ensures exists e :: e in t.log && e.kind == "indexer-event" && e.block > 0 && e.sender != "" &&
                e.block == t.trace[i].block && EventKey(e) == t.trace[i].key
    {
      var e: Event;
      if i < |s.trace| {
        e :| e in s.log && e.kind == "indexer-event" && e.block > 0 && e.sender != "" &&
          e.block == s.trace[i].block && EventKey(e) == s.trace[i].key;
      } else {
        e := s.client.running.value.task.event;
      }
      assert e in t.log;
    }
  }

  /** And nothing else is ever committed. */
  lemma {:induction false} OnlyEventsCommit(cfg: Config, actions: seq<Action>)
    requires ValidConfig(cfg) && Cooperative(cfg)
    ensures Run(cfg, actions).Some? ==> CommitsNamed(Run(cfg, actions).value)
  {
    if actions != [] {
      var before := actions[..|actions| - 1];
      OnlyEventsCommit(cfg, before);
      RunKeepsInv(cfg, before);
      if Run(cfg, actions).Some? {
        StepKeepsCommitsNamed(cfg, Run(cfg, before).value, actions[|actions| - 1], Run(cfg, actions).value);
      }
    }
  }

  /**
   * A failed event is not lost: when a catch-up goes live, every processable event that was in the
   * log at its last page read is dealt with, and once the queue of the session is worked off, so is
   * every event the session was sent.
   */
  lemma LiveSessionsLoseNothing(cfg: Config, s: State)
    requires ValidConfig(cfg) && Cooperative(cfg) && Reachable(cfg, s)
    ensures s.client.connection.InPage? && s.client.connection.rest == [] && |s.client.connection.page| < cfg.pageLimit ==>
              forall k :: 0 <= k < s.readTo && k < |s.log| && IsProcessable(s.log[k]) ==> Done(cfg, s.trace, |s.trace|, s.log[k])
    ensures s.client.connection.Finished? && s.client.chain == [] && s.client.running == None ==>
              && s.subscription.Some?
              && forall k :: 0 <= k < s.subscription.value.next && k < |s.log| && IsProcessable(s.log[k]) ==>
                   Done(cfg, s.trace, |s.trace|, s.log[k])
  {
    var actions :| Run(cfg, actions) == Some(s);
    RunKeepsInv(cfg, actions);
    if s.client.connection.InPage? && s.client.connection.rest == [] && |s.client.connection.page| < cfg.pageLimit {
      ShortPageCoversLog(cfg, s, s.client.connection.cursor, s.client.connection.page);
      forall k | 0 <= k < s.readTo && k < |s.log| && IsProcessable(s.log[k]) ensures Done(cfg, s.trace, |s.trace|, s.log[k]) {
        CoveredIsDone(cfg, s, s.log[k]);
      }
    }
    if s.client.connection.Finished? && s.client.chain == [] && s.client.running == None {
      forall k | 0 <= k < s.subscription.value.next && k < |s.log| && IsProcessable(s.log[k])
        ensures Done(cfg, s.trace, |s.trace|, s.log[k])
      {
        assert AccountedBefore(s, 0, s.log[k]);
        CoveredIsDone(cfg, s, s.log[k]);
      }
    }
  }
}
