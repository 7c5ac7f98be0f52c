/**
 * What holds in every run of the indexer synchronisation, whatever the indexer does: an event is
 * committed at most once, committed blocks never go down, and a generation with a failed live event
 * commits nothing more.
 */
module IndexerSafety {
  import opened Options
  import opened IndexerSync
  import opened VeranaHelpers
  import opened IndexerProtocol

  ghost predicate AtMostOnce(trace: seq<Entry>) {
    forall i, j :: 0 <= i < j < |trace| && trace[i].Committed? && trace[j].Committed? ==>
      trace[i].block != trace[j].block || trace[i].key != trace[j].key
  }

  ghost predicate BlocksNeverDecrease(trace: seq<Entry>) {
    forall i, j :: 0 <= i < j < |trace| && trace[i].Committed? && trace[j].Committed? ==>
      trace[i].block <= trace[j].block
  }

  /** After a live event of a generation fails, no event of that generation commits. */
  ghost predicate FailureContained(trace: seq<Entry>) {
    forall i, j :: 0 <= i < j < |trace| && trace[i].LiveFailed? && trace[j].Committed? ==>
      trace[i].epoch != trace[j].epoch || trace[i].generation != trace[j].generation
  }

  ghost predicate CoversKey(st: SyncState, block: int, key: string) {
    block <= st.lastBlockHeight || (st.partialBlock == Some(block) && key in st.partialKeys)
  }

  ghost predicate GenerationsBounded(c: Client) {
    && (forall i :: 0 <= i < |c.chain| ==> c.chain[i].generation <= c.generation)
    && (c.running.Some? ==> c.running.value.task.generation <= c.generation)
  }

  /** The running task works on the stored state, which its own save is the only one to change. */
  ghost predicate SnapshotCurrent(s: State) {
    s.client.running.Some? ==>
      var r := s.client.running.value;
      && (r.stage.Fetching? ==> r.stage.snapshot == s.store && !Covered(s.store, r.task.event))
      && (r.stage.Applying? ==> r.stage.snapshot == s.store && !Covered(s.store, r.task.event))
  }

  ghost predicate CommitsCovered(s: State) {
    forall i :: 0 <= i < |s.trace| && s.trace[i].Committed? ==>
      && CoversKey(s.store, s.trace[i].block, s.trace[i].key)
      && s.trace[i].block <= s.store.lastBlockHeight + 1
  }

  /** A generation with a failed live event is over, or the service is stopped. */
  ghost predicate FailuresStale(s: State) {
    forall i :: 0 <= i < |s.trace| && s.trace[i].LiveFailed? ==> FailureStale(s, s.trace[i])
  }

  ghost predicate FailureStale(s: State, f: Entry)
    requires f.LiveFailed?
  {
    && f.epoch <= s.epoch
    && (f.epoch == s.epoch ==>
          && (f.generation < s.client.generation || (f.generation == s.client.generation && s.client.stopped))
          && (s.client.running.Some? ==> s.client.running.value.task.generation != f.generation))
  }

  ghost predicate Inv(s: State) {
    && Valid(s.store)
    && GenerationsBounded(s.client)
    && SnapshotCurrent(s)
    && CommitsCovered(s)
    && FailuresStale(s)
    && AtMostOnce(s.trace)
    && BlocksNeverDecrease(s.trace)
    && FailureContained(s.trace)
  }

  /** A client step that leaves the running task alone and only lets the generation grow. */
  ghost predicate Evolves(c: Client, d: Client) {
    && d.running == c.running
    && c.generation <= d.generation
    && (c.generation < d.generation || d.stopped == c.stopped)
    && (forall i :: 0 <= i < |d.chain| ==> d.chain[i] in c.chain || d.chain[i].generation == c.generation)
  }

  lemma EvolvesTransitive(c: Client, d: Client, e: Client)
    requires Evolves(c, d) && Evolves(d, e)
    requires GenerationsBounded(c)
    ensures GenerationsBounded(d) && GenerationsBounded(e)
  {
    forall i | 0 <= i < |d.chain| ensures d.chain[i].generation <= d.generation {
      if d.chain[i] in c.chain {
        var k :| 0 <= k < |c.chain| && c.chain[k] == d.chain[i];
      }
    }
    forall i | 0 <= i < |e.chain| ensures e.chain[i].generation <= e.generation {
      if e.chain[i] in d.chain {
        var k :| 0 <= k < |d.chain| && d.chain[k] == e.chain[i];
      }
    }
  }

  lemma {:induction false} HandleBlockEvolves(c: Client, events: seq<Event>)
    ensures Evolves(c, HandleBlock(c, events))
    decreases |events|
  {
    if events != [] && IsProcessable(events[0]) {
      if !c.syncing {
        var d := EnqueueLive(c, events[0]);
        HandleBlockEvolves(d, events[1..]);
      } else if |c.syncBuffer| < MAX_SYNC_BUFFER {
        HandleBlockEvolves(c.(syncBuffer := c.syncBuffer + [events[0]]), events[1..]);
      }
    } else if events != [] {
      HandleBlockEvolves(c, events[1..]);
    }
  }

  /** A step that changes neither storage nor history keeps the invariant if the client evolves. */
  lemma EvolutionKeepsInv(s: State, t: State)
    requires Inv(s) && Evolves(s.client, t.client)
    requires t.store == s.store && t.trace == s.trace && t.epoch == s.epoch
    ensures Inv(t)
  {
    EvolvesTransitive(s.client, t.client, t.client);
    forall i | 0 <= i < |t.trace| && t.trace[i].LiveFailed? ensures FailureStale(t, t.trace[i]) {
      assert FailureStale(s, s.trace[i]);
    }
  }

  lemma FailuresStayStale(s: State, t: State)
    requires FailuresStale(s)
    requires t.trace == s.trace && t.epoch == s.epoch
    requires t.client.generation == s.client.generation && t.client.stopped == s.client.stopped
    requires t.client.running.Some? ==>
               || (s.client.running.Some? && t.client.running.value.task == s.client.running.value.task)
               || Active(s.client, t.client.running.value.task)
    ensures FailuresStale(t)
  {
    forall i | 0 <= i < |t.trace| && t.trace[i].LiveFailed? ensures FailureStale(t, t.trace[i]) {
      assert FailureStale(s, s.trace[i]);
    }
  }

  /** The steps of the queue, except the save and the failure. */
  lemma QueueKeepsInv(cfg: Config, s: State, a: Action, t: State)
    requires Inv(s) && Step(cfg, s, a) == Some(t)
    requires a == TaskStarts || a == TaskLoads || a == TaskFetches || a == TaskEnds
    ensures Inv(t)
  {
    FailuresStayStale(s, t);
  }

  lemma SaveKeepsInv(cfg: Config, s: State, t: State)
    requires Inv(s) && Step(cfg, s, TaskSaves) == Some(t)
    ensures Inv(t)
  {
    var task := s.client.running.value.task;
    var e := task.event;
    CommitCovers(s.store, e, e);
    forall i | 0 <= i < |s.trace| && s.trace[i].Committed?
      ensures CoversKey(t.store, s.trace[i].block, s.trace[i].key)
      ensures s.trace[i].block <= t.store.lastBlockHeight + 1
      ensures s.trace[i].block != e.block || s.trace[i].key != EventKey(e)
      ensures s.trace[i].block <= e.block
    {
    }
    forall i | 0 <= i < |t.trace| && t.trace[i].LiveFailed? ensures FailureStale(t, t.trace[i]) {
      assert FailureStale(s, s.trace[i]);
    }
  }

  lemma FailureKeepsInv(cfg: Config, s: State, t: State)
    requires Inv(s) && Step(cfg, s, TaskFails) == Some(t)
    ensures Inv(t)
  {
    forall i | 0 <= i < |s.trace| && s.trace[i].LiveFailed? ensures FailureStale(t, t.trace[i]) {
      assert FailureStale(s, s.trace[i]);
    }
  }

  lemma RestartKeepsInv(cfg: Config, s: State, t: State)
    requires Inv(s) && Step(cfg, s, RestartProcess) == Some(t)
    ensures Inv(t)
  {
    forall i | 0 <= i < |t.trace| && t.trace[i].LiveFailed? ensures FailureStale(t, t.trace[i]) {
      assert FailureStale(s, s.trace[i]);
    }
  }

  lemma StepKeepsInv(cfg: Config, s: State, a: Action, t: State)
    requires Inv(s) && Step(cfg, s, a) == Some(t)
    ensures Inv(t)
  {
    match a
    case TaskStarts => QueueKeepsInv(cfg, s, a, t);
    case TaskLoads => QueueKeepsInv(cfg, s, a, t);
    case TaskFetches => QueueKeepsInv(cfg, s, a, t);
    case TaskEnds => QueueKeepsInv(cfg, s, a, t);
    case TaskSaves => SaveKeepsInv(cfg, s, t);
    case TaskFails => FailureKeepsInv(cfg, s, t);
    case RestartProcess => RestartKeepsInv(cfg, s, t);
    case Deliver(count) =>
      var sub := s.subscription.value;
      HandleBlockEvolves(s.client, s.log[sub.next..sub.next + count]);
      EvolutionKeepsInv(s, t);
    case StopService => StopKeepsInv(cfg, s, t);
    case _ =>
      OtherStepEvolves(cfg, s, a, t);
      EvolutionKeepsInv(s, t);
  }

  lemma OtherStepEvolves(cfg: Config, s: State, a: Action, t: State)
    requires Step(cfg, s, a) == Some(t) && !a.Deliver? && !a.StopService? && !a.RestartProcess?
    requires !a.TaskStarts? && !a.TaskLoads? && !a.TaskFetches? && !a.TaskSaves? && !a.TaskEnds? && !a.TaskFails?
    ensures Evolves(s.client, t.client) && t.store == s.store && t.trace == s.trace && t.epoch == s.epoch
  {
  }

  lemma StopKeepsInv(cfg: Config, s: State, t: State)
    requires Inv(s) && Step(cfg, s, StopService) == Some(t)
    ensures Inv(t)
  {
    forall i | 0 <= i < |t.trace| && t.trace[i].LiveFailed? ensures FailureStale(t, t.trace[i]) {
      assert FailureStale(s, s.trace[i]);
    }
  }

  lemma {:induction false} RunKeepsInv(cfg: Config, actions: seq<Action>)
    requires Valid(cfg.initial)
    ensures Run(cfg, actions).Some? ==> Inv(Run(cfg, actions).value)
  {
    if actions != [] {
      var before := actions[..|actions| - 1];
      RunKeepsInv(cfg, before);
      if Run(cfg, actions).Some? {
        StepKeepsInv(cfg, Run(cfg, before).value, actions[|actions| - 1], Run(cfg, actions).value);
      }
    }
  }

  /**
   * In every reachable state, for any interleaving of page events, buffered events, repeats of an event
   * on pages and live, failures and restarts, for any block-ordered log, with or without an acknowledged
   * subscription and oversize blocks: each event is committed at most once, committed blocks never
   * decrease, and a failed live event ends the commits of its generation.
   */
  lemma CommitsAreSafe(cfg: Config, s: State)
    requires Valid(cfg.initial) && Reachable(cfg, s)
    ensures AtMostOnce(s.trace)
    ensures BlocksNeverDecrease(s.trace)
    ensures FailureContained(s.trace)
  {
    var actions :| Run(cfg, actions) == Some(s);
    RunKeepsInv(cfg, actions);
  }
}
