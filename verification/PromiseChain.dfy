/**
 * The promise chain behind `runExclusive`, at the level of microtasks: tasks run one at a time and in
 * order, a rejection does not stop the chain, and the handler that `enqueueLive` attaches to a
 * rejected task runs before the next task starts. The last fact is what lets IndexerProtocol treat
 * "live task fails, generation is bumped" as one step.
 *
 * Models `runExclusive` and `enqueueLive` of
 * packages/agent-sdk/src/blockchain/IndexerWebSocketService.ts.
 */
module PromiseChain {
  datatype TaskState = Waiting | Running | Resolved | Rejected

  /** A live task has a rejection handler; a catch-up task is awaited instead. */
  datatype Task = Task(live: bool, state: TaskState)

  /** What the microtask queue holds. `Other` stands for the microtasks of unrelated promises. */
  datatype Job =
    | StartTask(task: nat)
    | FulfillChain(task: nat)
    | HandleRejection(task: nat)
    | Other

  /**
   * `chained` holds the tasks whose link of the chain is fulfilled, `handled` those whose rejection
   * handler has run.
   */
  datatype Chain = Chain(tasks: seq<Task>, chained: set<nat>, handled: set<nat>, jobs: seq<Job>)

  datatype Action = RunExclusive(live: bool) | Settle(task: nat, ok: bool) | RunMicrotask | QueueOther

  const EMPTY_CHAIN := Chain([], {}, {}, [])

  /** `this.chain.then(task)`: a fulfilled chain queues the task at once. */
  function Enqueue(c: Chain, live: bool): Chain {
    var i := |c.tasks|;
    c.(tasks := c.tasks + [Task(live, Waiting)],
       jobs := if i == 0 || i - 1 in c.chained then c.jobs + [StartTask(i)] else c.jobs)
  }

  /** The reactions run in the order of registration: the next link of the chain, then the handler. */
  function SettleTask(c: Chain, i: nat, ok: bool): Chain
    requires i < |c.tasks|
  {
    c.(tasks := c.tasks[i := c.tasks[i].(state := if ok then Resolved else Rejected)],
       jobs := c.jobs + [FulfillChain(i)] + (if c.tasks[i].live && !ok then [HandleRejection(i)] else []))
  }

  function RunJob(c: Chain): Chain
    requires c.jobs != []
  {
    var rest := c.jobs[1..];
    match c.jobs[0]
    case StartTask(i) =>
      if i < |c.tasks| then c.(tasks := c.tasks[i := c.tasks[i].(state := Running)], jobs := rest)
      else c.(jobs := rest)
    case FulfillChain(i) =>
      c.(chained := c.chained + {i},
         jobs := if i + 1 < |c.tasks| then rest + [StartTask(i + 1)] else rest)
    case HandleRejection(i) => c.(handled := c.handled + {i}, jobs := rest)
    case Other => c.(jobs := rest)
  }

  predicate Enabled(c: Chain, a: Action) {
    match a
    case RunExclusive(_) => true
    case Settle(i, _) => i < |c.tasks| && c.tasks[i].state == Running
    case RunMicrotask => c.jobs != []
    case QueueOther => true
  }

  function Step(c: Chain, a: Action): Chain
    requires Enabled(c, a)
  {
    match a
    case RunExclusive(live) => Enqueue(c, live)
    case Settle(i, ok) => SettleTask(c, i, ok)
    case RunMicrotask => RunJob(c)
    case QueueOther => c.(jobs := c.jobs + [Other])
  }

  /** The states a run of the actions passes, from the empty chain. */
  ghost predicate IsRun(run: seq<Chain>, actions: seq<Action>) {
    && |run| == |actions| + 1
    && run[0] == EMPTY_CHAIN
    && forall n :: 0 <= n < |actions| ==> Enabled(run[n], actions[n]) && run[n + 1] == Step(run[n], actions[n])
  }

  // ---------------------------------------------------------------- the invariant

  predicate Settled(t: Task) {
    t.state == Resolved || t.state == Rejected
  }

  /** All links before task `j` are fulfilled. */
  ghost predicate Reached(c: Chain, j: nat) {
    forall i: nat :: i < j ==> i in c.chained
  }

  ghost predicate LinksOk(c: Chain) {
    && (forall i :: i in c.chained ==> i < |c.tasks| && Settled(c.tasks[i]) && Reached(c, i))
    && (forall j: nat :: j < |c.tasks| && c.tasks[j].state != Waiting ==> Reached(c, j))
    && (forall j: nat :: j < |c.tasks| && Settled(c.tasks[j]) && j !in c.chained ==> FulfillChain(j) in c.jobs)
    && (forall j: nat :: j < |c.tasks| && c.tasks[j].state == Waiting && Reached(c, j) ==> StartTask(j) in c.jobs)
  }

  ghost predicate JobsOk(c: Chain) {
    && (forall p :: 0 <= p < |c.jobs| && c.jobs[p].StartTask? ==>
          var j := c.jobs[p].task;
          j < |c.tasks| && c.tasks[j].state == Waiting && Reached(c, j) && forall q :: 0 <= q < |c.jobs| && q != p ==> c.jobs[q] != c.jobs[p])
    && (forall p :: 0 <= p < |c.jobs| && c.jobs[p].FulfillChain? ==>
          var j := c.jobs[p].task;
          j < |c.tasks| && Settled(c.tasks[j]) && j !in c.chained && forall q :: 0 <= q < |c.jobs| && q != p ==> c.jobs[q] != c.jobs[p])
  }

  ghost predicate FailedLive(c: Chain, i: nat) {
    i < |c.tasks| && c.tasks[i].live && c.tasks[i].state == Rejected
  }

  /** The handler of a failed live task is ahead of every later task in the microtask queue. */
  ghost predicate HandlerAhead(c: Chain, i: nat) {
    || i in c.handled
    || exists p :: 0 <= p < |c.jobs| && c.jobs[p] == HandleRejection(i) &&
         forall q :: 0 <= q < |c.jobs| && c.jobs[q].StartTask? && c.jobs[q].task > i ==> p < q
  }

  ghost predicate HandlersOk(c: Chain) {
    && (forall i: nat :: FailedLive(c, i) ==> HandlerAhead(c, i))
    && (forall i: nat, j: nat :: i < j < |c.tasks| && FailedLive(c, i) && c.tasks[j].state != Waiting ==> i in c.handled)
  }

  ghost predicate Inv(c: Chain) {
    LinksOk(c) && JobsOk(c) && HandlersOk(c)
  }

  lemma EnqueueKeepsLinks(c: Chain, live: bool)
    requires LinksOk(c)
    ensures LinksOk(Enqueue(c, live))
  {
    var d := Enqueue(c, live);
    var n := |c.tasks|;
    assert forall k :: k in c.jobs ==> k in d.jobs;
    if n == 0 || n - 1 in c.chained {
      assert d.jobs[|c.jobs|] == StartTask(n);
    }
  }

  lemma EnqueueKeepsJobs(c: Chain, live: bool)
    requires LinksOk(c) && JobsOk(c)
    ensures JobsOk(Enqueue(c, live))
  {
    var d := Enqueue(c, live);
    var n := |c.tasks|;
    assert forall p :: 0 <= p < |c.jobs| ==> d.jobs[p] == c.jobs[p];
    if n == 0 || n - 1 in c.chained {
      assert n > 0 ==> Reached(c, n - 1);
      assert Reached(d, n);
    }
  }

  lemma EnqueueKeepsHandlers(c: Chain, live: bool)
    requires HandlersOk(c)
    ensures HandlersOk(Enqueue(c, live))
  {
    var d := Enqueue(c, live);
    forall i: nat | FailedLive(d, i) ensures HandlerAhead(d, i) {
      assert FailedLive(c, i);
      HandlerStaysAhead(c, d, i);
    }
    forall i: nat, j: nat | i < j < |d.tasks| && FailedLive(d, i) && d.tasks[j].state != Waiting
      ensures i in d.handled
    {
      assert FailedLive(c, i) && d.tasks[j] == c.tasks[j];
    }
  }

  /** Jobs queued behind do not overtake a handler. */
  lemma HandlerStaysAhead(c: Chain, d: Chain, i: nat)
    requires HandlerAhead(c, i) && c.jobs <= d.jobs && c.handled <= d.handled
    ensures HandlerAhead(d, i)
  {
    if i !in c.handled {
      var p :| 0 <= p < |c.jobs| && c.jobs[p] == HandleRejection(i) &&
               forall q :: 0 <= q < |c.jobs| && c.jobs[q].StartTask? && c.jobs[q].task > i ==> p < q;
      assert d.jobs[p] == HandleRejection(i);
      forall q | 0 <= q < |d.jobs| && d.jobs[q].StartTask? && d.jobs[q].task > i ensures p < q {
        if q < |c.jobs| {
          assert d.jobs[q] == c.jobs[q];
        }
      }
    }
  }

  lemma SettleKeepsLinks(c: Chain, i: nat, ok: bool)
    requires LinksOk(c) && i < |c.tasks| && c.tasks[i].state == Running
    ensures LinksOk(SettleTask(c, i, ok))
  {
    var d := SettleTask(c, i, ok);
    assert forall k :: k in c.jobs ==> k in d.jobs;
    assert d.jobs[|c.jobs|] == FulfillChain(i);
    assert i !in c.chained;
  }

  lemma SettleKeepsJobs(c: Chain, i: nat, ok: bool)
    requires LinksOk(c) && JobsOk(c) && i < |c.tasks| && c.tasks[i].state == Running
    ensures JobsOk(SettleTask(c, i, ok))
  {
    var d := SettleTask(c, i, ok);
    assert forall p :: 0 <= p < |c.jobs| ==> d.jobs[p] == c.jobs[p];
    assert i !in c.chained;
  }

  lemma SettleKeepsHandlers(c: Chain, i: nat, ok: bool)
    requires Inv(c) && i < |c.tasks| && c.tasks[i].state == Running
    ensures HandlersOk(SettleTask(c, i, ok))
  {
    var d := SettleTask(c, i, ok);
    var n := |c.jobs|;
    assert i !in c.chained;
    forall j: nat | i < j < |c.tasks| ensures c.tasks[j].state == Waiting {
      assert !Reached(c, j);
    }
    forall j: nat | FailedLive(d, j) ensures HandlerAhead(d, j) {
      if j == i {
        SettledHandlerAhead(c, i);
      } else {
        assert FailedLive(c, j);
        HandlerStaysAhead(c, d, j);
      }
    }
  }

  lemma SettledHandlerAhead(c: Chain, i: nat)
    requires JobsOk(c) && i < |c.tasks| && c.tasks[i].live && i !in c.chained
    ensures HandlerAhead(SettleTask(c, i, false), i)
  {
    var d := SettleTask(c, i, false);
    var n := |c.jobs|;
    forall q | 0 <= q < n && c.jobs[q].StartTask? ensures c.jobs[q].task <= i {
      assert Reached(c, c.jobs[q].task);
    }
    assert d.jobs[n + 1] == HandleRejection(i);
    assert forall q :: 0 <= q < n ==> d.jobs[q] == c.jobs[q];
  }

  lemma PopKeepsHandlers(c: Chain, d: Chain, i: nat)
    requires c.jobs != [] && HandlerAhead(c, i)
    requires c.jobs[1..] <= d.jobs && c.handled <= d.handled
    requires c.jobs[0] == HandleRejection(i) ==> i in d.handled
    ensures HandlerAhead(d, i)
  {
    if i !in d.handled {
      var p :| 0 <= p < |c.jobs| && c.jobs[p] == HandleRejection(i) &&
               forall q :: 0 <= q < |c.jobs| && c.jobs[q].StartTask? && c.jobs[q].task > i ==> p < q;
      assert d.jobs[p - 1] == c.jobs[1..][p - 1] == HandleRejection(i);
      forall q | 0 <= q < |d.jobs| && d.jobs[q].StartTask? && d.jobs[q].task > i ensures p - 1 < q {
        if q < |c.jobs| - 1 {
          assert d.jobs[q] == c.jobs[1..][q] == c.jobs[q + 1];
        }
      }
    }
  }

  /** The queue without its head: the other jobs are still there. */
  lemma PopJob(c: Chain)
    requires c.jobs != []
    ensures forall p :: 0 <= p < |c.jobs| - 1 ==> c.jobs[1..][p] == c.jobs[p + 1]
    ensures forall k :: k in c.jobs && k != c.jobs[0] ==> k in c.jobs[1..]
  {
  }

  lemma StartKeepsLinks(c: Chain)
    requires LinksOk(c) && JobsOk(c) && c.jobs != [] && c.jobs[0].StartTask?
    ensures LinksOk(RunJob(c)) && JobsOk(RunJob(c))
  {
    PopJob(c);
  }

  /** A waiting task that is reached after a link is fulfilled is queued. */
  lemma FulfillQueuesNext(c: Chain, j: nat)
    requires LinksOk(c) && JobsOk(c) && c.jobs != [] && c.jobs[0].FulfillChain?
    requires j < |c.tasks| && c.tasks[j].state == Waiting && Reached(RunJob(c), j)
    ensures StartTask(j) in RunJob(c).jobs
  {
    PopJob(c);
    var d, i := RunJob(c), c.jobs[0].task;
    if Reached(c, j) {
      assert StartTask(j) in c.jobs[1..];
    } else {
      assert j == i + 1;
      assert d.jobs[|c.jobs| - 1] == StartTask(j);
    }
  }

  lemma FulfillKeepsLinks(c: Chain)
    requires LinksOk(c) && JobsOk(c) && c.jobs != [] && c.jobs[0].FulfillChain?
    ensures LinksOk(RunJob(c))
  {
    PopJob(c);
    var d := RunJob(c);
    assert forall k :: k in c.jobs[1..] ==> k in d.jobs;
    forall j: nat | j < |d.tasks| && d.tasks[j].state == Waiting && Reached(d, j) ensures StartTask(j) in d.jobs {
      FulfillQueuesNext(c, j);
    }
  }

  /** The head of the queue is gone, and its link is fulfilled. */
  lemma PopKeepsJobs(c: Chain, d: Chain)
    requires JobsOk(c) && c.jobs != [] && c.jobs[0].FulfillChain?
    requires d == c.(chained := c.chained + {c.jobs[0].task}, jobs := c.jobs[1..])
    ensures JobsOk(d)
  {
    assert forall q :: 0 <= q < |d.jobs| ==> d.jobs[q] == c.jobs[q + 1];
  }

  lemma AppendKeepsJobs(c: Chain, j: nat)
    requires JobsOk(c) && StartTask(j) !in c.jobs
    requires j < |c.tasks| && c.tasks[j].state == Waiting && Reached(c, j)
    ensures JobsOk(c.(jobs := c.jobs + [StartTask(j)]))
  {
  }

  /** The task behind a link that is being fulfilled is reached now, and waits unqueued. */
  lemma NextTaskWaits(c: Chain, i: nat)
    requires LinksOk(c) && JobsOk(c) && FulfillChain(i) in c.jobs
    ensures Reached(c.(chained := c.chained + {i}), i + 1) && StartTask(i + 1) !in c.jobs
    ensures i + 1 < |c.tasks| ==> c.tasks[i + 1].state == Waiting
  {
    assert i !in c.chained && !Reached(c, i + 1);
    assert Reached(c, i);
  }

  lemma FulfillKeepsJobs(c: Chain)
    requires LinksOk(c) && JobsOk(c) && c.jobs != [] && c.jobs[0].FulfillChain?
    ensures JobsOk(RunJob(c))
  {
    var i := c.jobs[0].task;
    var d := c.(chained := c.chained + {i}, jobs := c.jobs[1..]);
    PopKeepsJobs(c, d);
    NextTaskWaits(c, i);
    assert Reached(d, i + 1);
    if i + 1 < |c.tasks| {
      AppendKeepsJobs(d, i + 1);
    }
  }

  lemma OtherKeepsLinks(c: Chain)
    requires LinksOk(c) && JobsOk(c) && c.jobs != [] && (c.jobs[0].Other? || c.jobs[0].HandleRejection?)
    ensures LinksOk(RunJob(c)) && JobsOk(RunJob(c))
  {
    PopJob(c);
  }

  lemma RunJobKeepsLinks(c: Chain)
    requires Inv(c) && c.jobs != []
    ensures LinksOk(RunJob(c)) && JobsOk(RunJob(c))
  {
    match c.jobs[0]
    case StartTask(_) => StartKeepsLinks(c);
    case FulfillChain(_) =>
      FulfillKeepsLinks(c);
      FulfillKeepsJobs(c);
    case _ => OtherKeepsLinks(c);
  }

  lemma RunJobKeepsHandlers(c: Chain)
    requires Inv(c) && c.jobs != []
    ensures HandlersOk(RunJob(c))
  {
    var d := RunJob(c);
    forall i: nat | FailedLive(d, i) ensures HandlerAhead(d, i) {
      assert FailedLive(c, i);
      PopKeepsHandlers(c, d, i);
    }
    forall i: nat, j: nat | i < j < |d.tasks| && FailedLive(d, i) && d.tasks[j].state != Waiting
      ensures i in d.handled
    {
      assert FailedLive(c, i);
      if c.tasks[j].state == Waiting {
        assert c.jobs[0] == StartTask(j);
        assert HandlerAhead(c, i);
      }
    }
  }

  lemma StepKeepsInv(c: Chain, a: Action)
    requires Inv(c) && Enabled(c, a)
    ensures Inv(Step(c, a))
  {
    match a
    case RunExclusive(live) =>
      EnqueueKeepsLinks(c, live);
      EnqueueKeepsJobs(c, live);
      EnqueueKeepsHandlers(c, live);
    case Settle(i, ok) =>
      SettleKeepsLinks(c, i, ok);
      SettleKeepsJobs(c, i, ok);
      SettleKeepsHandlers(c, i, ok);
    case RunMicrotask =>
      RunJobKeepsLinks(c);
      RunJobKeepsHandlers(c);
    case QueueOther =>
      var d := Step(c, a);
      assert forall p :: 0 <= p < |c.jobs| ==> d.jobs[p] == c.jobs[p];
      forall i: nat | FailedLive(d, i) ensures HandlerAhead(d, i) {
        assert FailedLive(c, i);
        HandlerStaysAhead(c, d, i);
      }
  }

  lemma {:induction false} RunKeepsInv(run: seq<Chain>, actions: seq<Action>, n: nat)
    requires IsRun(run, actions) && n < |run|
    ensures Inv(run[n])
  {
    if n > 0 {
      RunKeepsInv(run, actions, n - 1);
      StepKeepsInv(run[n - 1], actions[n - 1]);
    }
  }

  // ---------------------------------------------------------------- the claims

  /**
   * Once a task has started, every earlier task has settled and every earlier failed live task has
   * had its rejection handled.
   */
  lemma StartedTaskFollowsHandlers(run: seq<Chain>, actions: seq<Action>, n: nat, i: nat, j: nat)
    requires IsRun(run, actions) && n < |run|
    requires i < j < |run[n].tasks| && run[n].tasks[j].state != Waiting
    ensures Settled(run[n].tasks[i])
    ensures FailedLive(run[n], i) ==> i in run[n].handled
  {
    RunKeepsInv(run, actions, n);
    assert Reached(run[n], j);
  }

  /** At most one task runs at any time. */
  lemma OneTaskAtATime(run: seq<Chain>, actions: seq<Action>, n: nat, i: nat, j: nat)
    requires IsRun(run, actions) && n < |run|
    requires i < |run[n].tasks| && j < |run[n].tasks|
    requires run[n].tasks[i].state == Running && run[n].tasks[j].state == Running
    ensures i == j
  {
    if i < j {
      StartedTaskFollowsHandlers(run, actions, n, i, j);
    } else if j < i {
      StartedTaskFollowsHandlers(run, actions, n, j, i);
    }
  }

  /** A rejection does not poison the chain: with no microtask left and no task running, all tasks are done. */
  lemma {:induction false} RejectionDoesNotPoison(run: seq<Chain>, actions: seq<Action>, n: nat, j: nat)
    requires IsRun(run, actions) && n < |run| && j < |run[n].tasks|
    requires run[n].jobs == [] && forall i :: 0 <= i < |run[n].tasks| ==> run[n].tasks[i].state != Running
    ensures Settled(run[n].tasks[j])
  {
    RunKeepsInv(run, actions, n);
    if j > 0 {
      RejectionDoesNotPoison(run, actions, n, j - 1);
      assert j - 1 in run[n].chained;
    }
    assert Reached(run[n], j);
  }
}
