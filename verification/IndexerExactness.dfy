/**
 * Where gap-freedom ends: both promises of a cooperative indexer are needed. A session that starts
 * its catch-up before the subscription is active can miss an event for good, and so can a block that
 * holds more events than a page.
 */
module IndexerExactness {
  import opened Options
  import opened IndexerSync
  import opened VeranaHelpers
  import opened RestCatchUp
  import opened IndexerProtocol
  import opened IndexerInvariant
  import IndexerGapFreedom

  lemma RunStep(cfg: Config, actions: seq<Action>, s: State, a: Action, t: State)
    requires Run(cfg, actions) == Some(s) && Step(cfg, s, a) == Some(t)
    ensures Run(cfg, actions + [a]) == Some(t)
  {
    assert (actions + [a])[..|actions + [a]| - 1] == actions;
  }

  lemma ReachStep(cfg: Config, s: State, a: Action, t: State)
    requires Reachable(cfg, s) && Step(cfg, s, a) == Some(t)
    ensures Reachable(cfg, t)
  {
    var actions :| Run(cfg, actions) == Some(s);
    RunStep(cfg, actions, s, a, t);
  }

  lemma InitialReachable(cfg: Config)
    ensures Reachable(cfg, Initial(cfg))
  {
    assert Run(cfg, []) == Some(Initial(cfg));
  }

  function EventAt(block: int, sender: string, hash: string): Event {
    Event("indexer-event", "", block, hash, 0, 0, sender)
  }

  /** A block height the first checkpoint says nothing about. */
  function FreshBlock(cfg: Config): int {
    Max(cfg.initial.lastBlockHeight, 0) + 2
  }

  lemma QueueFetches(cfg: Config, s: State, task: Task) returns (t: State)
    requires Reachable(cfg, s) && s.client.chain == [task] && s.client.running == None
    requires Active(s.client, task) && !Covered(s.store, task.event)
    ensures Reachable(cfg, t)
    ensures t == s.(client := t.client) && Active(t.client, task)
    ensures t.client.running == Some(Running(task, Fetching(s.store)))
  {
    var s1 := s.(client := StartTask(s.client));
    ReachStep(cfg, s, TaskStarts, s1);
    t := s1.(client := StateLoaded(s1.client, s1.store));
    ReachStep(cfg, s1, TaskLoads, t);
  }

  lemma QueueSaves(cfg: Config, s: State, task: Task) returns (t: State)
    requires Reachable(cfg, s) && Active(s.client, task)
    requires s.client.running == Some(Running(task, Fetching(s.store)))
    ensures Reachable(cfg, t) && t.log == s.log && t.store == CommitEvent(s.store, task.event)
    ensures t.trace == s.trace + [Committed(task.event.block, EventKey(task.event), s.epoch, task.generation)]
  {
    var s1 := s.(client := ActivityFetched(s.client));
    ReachStep(cfg, s, TaskFetches, s1);
    t := Step(cfg, s1, TaskSaves).value;
    ReachStep(cfg, s1, TaskSaves, t);
  }

  /** The only queued task is active and its event is uncovered: the queue can commit it. */
  lemma QueueCommits(cfg: Config, s: State, task: Task) returns (t: State)
    requires Reachable(cfg, s) && s.client.chain == [task] && s.client.running == None
    requires Active(s.client, task) && !Covered(s.store, task.event)
    ensures Reachable(cfg, t) && t.log == s.log && t.store == CommitEvent(s.store, task.event)
    ensures t.trace == s.trace + [Committed(task.event.block, EventKey(task.event), s.epoch, task.generation)]
  {
    var s1 := QueueFetches(cfg, s, task);
    t := QueueSaves(cfg, s1, task);
  }

  lemma OneEventIsQueued(c: Client, e: Event)
    requires !c.syncing && IsProcessable(e)
    ensures HandleBlock(c, [e]) == EnqueueLive(c, e)
  {
    assert [e][1..] == [];
    assert HandleBlock(EnqueueLive(c, e), []) == EnqueueLive(c, e);
  }

  /** In a live session, delivering one uncovered event and working it off commits it. */
  lemma LiveCommit(cfg: Config, s: State, e: Event) returns (t: State)
    requires Reachable(cfg, s) && !s.client.syncing && !s.client.stopped
    requires s.client.socket == Open && s.client.chain == [] && s.client.running == None
    requires s.subscription.Some? && s.subscription.value.next < |s.log| && s.log[s.subscription.value.next] == e
    requires IsProcessable(e) && !Covered(s.store, e)
    ensures Reachable(cfg, t) && t.log == s.log && t.store == CommitEvent(s.store, e)
    ensures t.trace == s.trace + [Committed(e.block, EventKey(e), s.epoch, s.client.generation)]
  {
    var c := s.client;
    var sub := s.subscription.value;
    assert s.log[sub.next..sub.next + 1] == [e];
    OneEventIsQueued(c, e);
    var s1 := s.(client := EnqueueLive(c, e), subscription := Some(sub.(next := sub.next + 1)));
    ReachStep(cfg, s, Deliver(1), s1);
    assert [] + [Task(e, c.generation, Live)] == [Task(e, c.generation, Live)];
    t := QueueCommits(cfg, s1, Task(e, c.generation, Live));
  }

  // ---------------------------------------------------------------- a catch-up without acknowledgement

  /**
   * The catch-up runs on an empty log before the subscription is active; an event lands in between;
   * the next live event then moves the height past it.
   */
  lemma TimedOutSessionLosesEvent(cfg: Config) returns (s: State)
    requires ValidConfig(cfg) && cfg.ackMayTimeOut
    ensures Reachable(cfg, s) && !GapFree(cfg, s)
  {
    var b := FreshBlock(cfg);
    var missed, seen := EventAt(b, "sender", "missed"), EventAt(b + 1, "sender", "seen");
    var s0 := LateSubscription(cfg, missed, seen);
    s := LiveCommit(cfg, s0, seen);
    assert missed in s.log && IsProcessable(missed) && missed.block <= s.store.lastBlockHeight;
    assert !Done(cfg, s.trace, |s.trace|, missed);
  }

  /** One event landed before the subscription became active, one after; the session is live. */
  lemma LateSubscription(cfg: Config, missed: Event, seen: Event) returns (s: State)
    requires ValidConfig(cfg) && cfg.ackMayTimeOut && missed.block < seen.block
    ensures Reachable(cfg, s) && s.log == [missed, seen] && s.subscription == Some(Subscription(1, 1))
    ensures s.store == cfg.initial && s.trace == []
    ensures !s.client.syncing && !s.client.stopped && s.client.socket == Open
    ensures s.client.chain == [] && s.client.running == None
  {
    var s0 := EmptyCatchUp(cfg);
    var s1 := s0.(log := [missed]);
    assert s0.log + [missed] == [missed];
    ReachStep(cfg, s0, Append([missed]), s1);
    var s2 := s1.(subscription := Some(Subscription(1, 1)));
    ReachStep(cfg, s1, Activate, s2);
    s := s2.(log := [missed, seen]);
    assert s2.log + [seen] == [missed, seen];
    ReachStep(cfg, s2, Append([seen]), s);
  }

  /** A session whose acknowledgement timed out asks for its first page. */
  lemma TimedOutHandshake(cfg: Config) returns (s: State)
    requires ValidConfig(cfg) && cfg.ackMayTimeOut
    ensures Reachable(cfg, s)
    ensures s.client.connection == AwaitPage(cfg.initial.lastBlockHeight)
    ensures !s.client.stopped && s.client.socket == Open
    ensures s.client.chain == [] && s.client.running == None && s.client.syncBuffer == []
    ensures s.log == [] && s.trace == [] && s.store == cfg.initial && s.subscription == None
  {
    InitialReachable(cfg);
    var s0 := Initial(cfg);
    var s1 := s0.(client := Connect(NEW_CLIENT));
    ReachStep(cfg, s0, Start, s1);
    var s2 := s1.(client := s1.client.(phase := CatchingUp, connection := LoadCursor));
    ReachStep(cfg, s1, SubscribeTimedOut, s2);
    s := s2.(client := s2.client.(connection := AwaitPage(cfg.initial.lastBlockHeight)));
    ReachStep(cfg, s2, CursorLoaded, s);
  }

  /** A timed-out catch-up over an empty log goes live with no subscription. */
  lemma EmptyCatchUp(cfg: Config) returns (s: State)
    requires ValidConfig(cfg) && cfg.ackMayTimeOut
    ensures Reachable(cfg, s)
    ensures !s.client.syncing && !s.client.stopped && s.client.socket == Open
    ensures s.client.chain == [] && s.client.running == None
    ensures s.log == [] && s.trace == [] && s.store == cfg.initial && s.subscription == None
  {
    var s0 := TimedOutHandshake(cfg);
    var s1 := s0.(client := PageArrives(s0.client, []), readTo := 0);
    assert Page([], cfg.initial.lastBlockHeight, cfg.pageLimit) == [];
    ReachStep(cfg, s0, PageRead, s1);
    s := s1.(client := FinishPage(s1.client, cfg.pageLimit));
    ReachStep(cfg, s1, PageDone, s);
  }

  // ---------------------------------------------------------------- a block that exceeds a page

  function Repeat(e: Event, n: nat): seq<Event> {
    if n == 0 then [] else [e] + Repeat(e, n - 1)
  }

  lemma {:induction false} RepeatFacts(e: Event, n: nat, start: int)
    ensures |Repeat(e, n)| == n && forall i :: 0 <= i < n ==> Repeat(e, n)[i] == e
    ensures !IsProcessable(e) ==> Processable(Repeat(e, n)) == []
    ensures n > 0 ==> MaxBlock(Repeat(e, n), start) == Max(start, e.block)
  {
    if n > 0 {
      RepeatFacts(e, n - 1, Max(start, e.block));
      if n > 1 {
        RepeatFacts(e, n - 1, start);
      }
      assert Repeat(e, n)[1..] == Repeat(e, n - 1);
    }
  }

  /** One block of `limit` events nobody processes and one that matters, and an event of the next block. */
  function OversizeLog(b: int, limit: nat): seq<Event> {
    Repeat(EventAt(b, "", ""), limit) + [EventAt(b, "sender", "missed"), EventAt(b + 1, "sender", "seen")]
  }

  lemma OversizeLogFacts(cfg: Config, b: int)
    requires ValidConfig(cfg) && cfg.maxBlockEvents > cfg.pageLimit
    ensures var log := OversizeLog(b, cfg.pageLimit);
            && BlockSorted(log) && BlocksAtMost(log, cfg.maxBlockEvents) && |log| == cfg.pageLimit + 2
            && (forall i :: 0 <= i <= cfg.pageLimit ==> log[i].block == b)
            && log[cfg.pageLimit + 1] == EventAt(b + 1, "sender", "seen")
            && log[cfg.pageLimit] == EventAt(b, "sender", "missed")
  {
    RepeatFacts(EventAt(b, "", ""), cfg.pageLimit, b);
  }

  /** Below the big block every page is its first `limit` events. */
  lemma OversizePage(cfg: Config, b: int, cursor: int)
    requires ValidConfig(cfg) && cfg.maxBlockEvents > cfg.pageLimit && cursor < b
    ensures var page := Page(OversizeLog(b, cfg.pageLimit), cursor, cfg.pageLimit);
            && Processable(page) == []
            && NextRestCursor(page, cursor, cfg.pageLimit) ==
               if cursor < b - 1 then RestCursor(false, b - 1, false) else RestCursor(false, b, true)
  {
    var log := OversizeLog(b, cfg.pageLimit);
    var junk := Repeat(EventAt(b, "", ""), cfg.pageLimit);
    OversizeLogFacts(cfg, b);
    RepeatFacts(EventAt(b, "", ""), cfg.pageLimit, cursor);
    PageSlice(log, cursor, cfg.pageLimit);
    StartIndexBound(log, cursor, 0);
    assert log[0..cfg.pageLimit] == junk;
  }

  /** One page of the catch-up over the big block: nothing to apply, and the cursor moves on. */
  lemma OversizeTurn(cfg: Config, b: int, s: State, cursor: int) returns (t: State)
    requires ValidConfig(cfg) && cfg.maxBlockEvents > cfg.pageLimit && cursor < b
    requires Reachable(cfg, s) && s.log == OversizeLog(b, cfg.pageLimit)
    requires s.client.connection == AwaitPage(cursor) && !s.client.stopped && s.client.chain == [] && s.client.running == None
    ensures Reachable(cfg, t)
    ensures t == s.(client := s.client.(connection := AwaitPage(if cursor < b - 1 then b - 1 else b)), readTo := |s.log|)
  {
    var page := Page(s.log, cursor, cfg.pageLimit);
    OversizePage(cfg, b, cursor);
    var s1 := s.(client := PageArrives(s.client, page), readTo := |s.log|);
    ReachStep(cfg, s, PageRead, s1);
    t := s1.(client := FinishPage(s1.client, cfg.pageLimit));
    ReachStep(cfg, s1, PageDone, t);
  }

  /** An acknowledged session on the big block reaches the page behind it with nothing applied. */
  lemma OversizeCatchUp(cfg: Config, b: int) returns (s: State)
    requires ValidConfig(cfg) && cfg.maxBlockEvents > cfg.pageLimit && b == FreshBlock(cfg)
    ensures Reachable(cfg, s) && s.log == OversizeLog(b, cfg.pageLimit)
    ensures s.client.connection == AwaitPage(b) && !s.client.stopped && s.client.chain == [] && s.client.running == None
    ensures s.store == cfg.initial && s.trace == [] && s.epoch == 0
  {
    InitialReachable(cfg);
    OversizeLogFacts(cfg, b);
    var s0 := Initial(cfg);
    var log := OversizeLog(b, cfg.pageLimit);
    var s1 := s0.(log := log);
    assert s0.log + log == log;
    ReachStep(cfg, s0, Append(log), s1);
    var s2 := s1.(client := Connect(NEW_CLIENT));
    ReachStep(cfg, s1, Start, s2);
    var s3 := s2.(subscription := Some(Subscription(|log|, |log|)));
    ReachStep(cfg, s2, Activate, s3);
    var s4 := s3.(client := s3.client.(phase := CatchingUp, connection := LoadCursor));
    ReachStep(cfg, s3, Acknowledged, s4);
    var s5 := s4.(client := s4.client.(connection := AwaitPage(cfg.initial.lastBlockHeight)));
    ReachStep(cfg, s4, CursorLoaded, s5);
    var s6 := OversizeTurn(cfg, b, s5, cfg.initial.lastBlockHeight);
    s := OversizeTurn(cfg, b, s6, b - 1);
  }

  /** The event behind a full block is committed, and the height passes the event the pages skipped. */
  lemma OversizeBlockLosesEvent(cfg: Config) returns (s: State)
    requires ValidConfig(cfg) && cfg.maxBlockEvents > cfg.pageLimit
    ensures Reachable(cfg, s) && !GapFree(cfg, s)
  {
    var b := FreshBlock(cfg);
    var missed, seen := EventAt(b, "sender", "missed"), EventAt(b + 1, "sender", "seen");
    var s0 := OversizeCatchUp(cfg, b);
    OversizeLogFacts(cfg, b);
    LastPage(cfg, b);
    var s1 := s0.(client := PageArrives(s0.client, [seen]), readTo := |s0.log|);
    ReachStep(cfg, s0, PageRead, s1);
    assert SortEventsByPosition(Processable([seen])) == [seen];
    s := RestCommit(cfg, s1, seen);
    assert missed in s.log by {
      assert s.log[cfg.pageLimit] == missed;
    }
    assert IsProcessable(missed) && missed.block <= s.store.lastBlockHeight;
    assert !Done(cfg, s.trace, |s.trace|, missed);
  }

  lemma LastPage(cfg: Config, b: int)
    requires ValidConfig(cfg) && cfg.maxBlockEvents > cfg.pageLimit
    ensures Page(OversizeLog(b, cfg.pageLimit), b, cfg.pageLimit) == [EventAt(b + 1, "sender", "seen")]
  {
    var log := OversizeLog(b, cfg.pageLimit);
    OversizeLogFacts(cfg, b);
    PageSlice(log, b, cfg.pageLimit);
    StartIndexBound(log, b, cfg.pageLimit + 1);
    assert log[cfg.pageLimit + 1..] == [EventAt(b + 1, "sender", "seen")];
  }

  /** The catch-up submits the next event of its page, and the queue commits it. */
  lemma RestCommit(cfg: Config, s: State, e: Event) returns (t: State)
    requires Reachable(cfg, s) && s.client.connection.InPage? && !s.client.connection.submitted
    requires s.client.connection.rest == [e] && !s.client.stopped
    requires s.client.chain == [] && s.client.running == None && !Covered(s.store, e)
    ensures Reachable(cfg, t) && t.log == s.log && t.store == CommitEvent(s.store, e)
    ensures t.trace == s.trace + [Committed(e.block, EventKey(e), s.epoch, s.client.generation)]
  {
    var s1 := s.(client := SubmitEvent(s.client));
    ReachStep(cfg, s, NextEvent, s1);
    assert [] + [Task(e, s.client.generation, Rest)] == [Task(e, s.client.generation, Rest)];
    t := QueueCommits(cfg, s1, Task(e, s.client.generation, Rest));
  }

  // ---------------------------------------------------------------- the exact condition

  /**
   * The stored height is truthful in every run exactly when the acknowledgement cannot time out and
   * no block can hold more events than a page.
   */
  lemma HeightIsTruthfulIff(cfg: Config)
    requires ValidConfig(cfg)
    ensures (forall s :: Reachable(cfg, s) ==> GapFree(cfg, s)) <==>
            !cfg.ackMayTimeOut && cfg.maxBlockEvents <= cfg.pageLimit
  {
    if Cooperative(cfg) {
      forall s | Reachable(cfg, s) ensures GapFree(cfg, s) {
        IndexerGapFreedom.StoredHeightIsTruthful(cfg, s);
      }
    } else if cfg.ackMayTimeOut {
      var s := TimedOutSessionLosesEvent(cfg);
    } else {
      var s := OversizeBlockLosesEvent(cfg);
    }
  }
}
