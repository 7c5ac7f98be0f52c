/**
 * The per-key mutex of promises: every caller chains its run behind the run that the map holds for its
 * key, and drops the map entry when its own run is still the latest.
 *
 * Models `savingForOutOfBand` of packages/agent-sdk/src/connections/ParentConnectionModule.ts and
 * `acceptingInvitation` of packages/agent-sdk/src/events/InvitationEvents.ts. In both a failed run
 * lets the next one start, so `Settled` does not tell success from failure.
 */
module KeyedQueue {
  import opened Options

  datatype RunState = Waiting | Running | Settled

  /** `previous` is the run this one is chained behind; `left` holds once its caller has cleaned up. */
  datatype Run = Run(key: string, previous: Option<nat>, state: RunState, left: bool)

  datatype Queue = Queue(runs: seq<Run>, entries: map<string, nat>)

  datatype Action = Enter(key: string) | Begin(run: nat) | Settle(run: nat) | Leave(run: nat)

  const EMPTY_QUEUE := Queue([], map[])

  function EnterRun(q: Queue, key: string): Queue {
    var previous := if key in q.entries then Some(q.entries[key]) else None;
    Queue(q.runs + [Run(key, previous, Waiting, false)], q.entries[key := |q.runs|])
  }

  predicate CanBegin(q: Queue, i: nat) {
    && i < |q.runs|
    && q.runs[i].state == Waiting
    && match q.runs[i].previous
       case None => true
       case Some(p) => p < |q.runs| && q.runs[p].state == Settled
  }

  function BeginRun(q: Queue, i: nat): Queue
    requires i < |q.runs|
  {
    q.(runs := q.runs[i := q.runs[i].(state := Running)])
  }

  function SettleRun(q: Queue, i: nat): Queue
    requires i < |q.runs|
  {
    q.(runs := q.runs[i := q.runs[i].(state := Settled)])
  }

  function LeaveRun(q: Queue, i: nat): Queue
    requires i < |q.runs|
  {
    var run := q.runs[i];
    Queue(q.runs[i := run.(left := true)],
          if run.key in q.entries && q.entries[run.key] == i then q.entries - {run.key} else q.entries)
  }

  predicate Enabled(q: Queue, a: Action) {
    match a
    case Enter(_) => true
    case Begin(i) => CanBegin(q, i)
    case Settle(i) => i < |q.runs| && q.runs[i].state == Running
    case Leave(i) => i < |q.runs| && q.runs[i].state == Settled && !q.runs[i].left
  }

  function Step(q: Queue, a: Action): Queue
    requires Enabled(q, a)
  {
    match a
    case Enter(key) => EnterRun(q, key)
    case Begin(i) => BeginRun(q, i)
    case Settle(i) => SettleRun(q, i)
    case Leave(i) => LeaveRun(q, i)
  }

  // ---------------------------------------------------------------- the invariant

  ghost predicate Latest(q: Queue, i: nat)
    requires i < |q.runs|
  {
    forall j :: i < j < |q.runs| ==> q.runs[j].key != q.runs[i].key
  }

  /** Every earlier run of the same key has settled. */
  ghost predicate InTurn(q: Queue, i: nat)
    requires i < |q.runs|
  {
    forall j :: 0 <= j < i && q.runs[j].key == q.runs[i].key ==> q.runs[j].state == Settled
  }

  /** The map holds, for each key, the latest run that its caller has not left yet. */
  ghost predicate EntriesOk(q: Queue) {
    && (forall k :: k in q.entries ==>
          var i := q.entries[k]; i < |q.runs| && q.runs[i].key == k && Latest(q, i) && !q.runs[i].left)
    && (forall i: nat :: i < |q.runs| && Latest(q, i) && !q.runs[i].left ==>
          q.runs[i].key in q.entries && q.entries[q.runs[i].key] == i)
  }

  /** A run is chained behind the run of its key just before it, or all runs before it have settled. */
  ghost predicate ChainOk(q: Queue, i: nat)
    requires i < |q.runs|
  {
    match q.runs[i].previous
    case None => InTurn(q, i)
    case Some(p) =>
      && p < i
      && q.runs[p].key == q.runs[i].key
      && forall j :: p < j < i ==> q.runs[j].key != q.runs[i].key
  }

  /** A run that has begun is in turn, and only settled ones are left. */
  ghost predicate RunOk(q: Queue, i: nat)
    requires i < |q.runs|
  {
    && ChainOk(q, i)
    && (q.runs[i].state != Waiting ==> InTurn(q, i))
    && (q.runs[i].left ==> q.runs[i].state == Settled)
  }

  ghost predicate Inv(q: Queue) {
    EntriesOk(q) && forall i: nat :: i < |q.runs| ==> RunOk(q, i)
  }

  /** Of several runs of a key, one comes last. */
  lemma {:induction false} LatestOfKey(q: Queue, i: nat) returns (last: nat)
    requires i < |q.runs|
    ensures i <= last < |q.runs| && q.runs[last].key == q.runs[i].key && Latest(q, last)
    decreases |q.runs| - i
  {
    if j :| i < j < |q.runs| && q.runs[j].key == q.runs[i].key {
      last := LatestOfKey(q, j);
    } else {
      last := i;
    }
  }

  /** A key without an entry is idle: all its runs have settled. */
  lemma NoEntryMeansSettled(q: Queue, i: nat)
    requires Inv(q) && i < |q.runs| && q.runs[i].key !in q.entries
    ensures q.runs[i].state == Settled
  {
    var last := LatestOfKey(q, i);
    assert q.runs[last].left;
    assert RunOk(q, last);
  }

  lemma EnterKeepsEntries(q: Queue, key: string)
    requires Inv(q)
    ensures EntriesOk(EnterRun(q, key))
  {
    var next := EnterRun(q, key);
    var n := |q.runs|;
    assert forall j :: 0 <= j < n ==> next.runs[j] == q.runs[j];
    assert next.runs[n].key == key;
    forall i: nat | i < n && q.runs[i].key != key ensures Latest(next, i) <==> Latest(q, i) {
      if !Latest(q, i) {
        var j :| i < j < n && q.runs[j].key == q.runs[i].key;
        assert next.runs[j].key == next.runs[i].key;
      }
    }
    forall i: nat | i < n && q.runs[i].key == key ensures !Latest(next, i) {
      assert next.runs[n].key == next.runs[i].key;
    }
  }

  lemma EnterKeepsChains(q: Queue, key: string, i: nat)
    requires Inv(q) && i <= |q.runs|
    ensures var next := EnterRun(q, key); ChainOk(next, i) && (next.runs[i].state != Waiting ==> InTurn(next, i))
  {
    var next := EnterRun(q, key);
    var n := |q.runs|;
    assert forall j :: 0 <= j < n ==> next.runs[j] == q.runs[j];
    if i < n {
      assert RunOk(q, i);
      assert InTurn(q, i) ==> InTurn(next, i);
    } else if key !in q.entries {
      forall j: nat | j < n && q.runs[j].key == key ensures q.runs[j].state == Settled {
        NoEntryMeansSettled(q, j);
      }
    } else {
      assert Latest(q, q.entries[key]);
    }
  }

  /** A run chained behind a settled one that was itself in turn is in turn. */
  lemma BehindSettled(q: Queue, i: nat)
    requires i < |q.runs| && ChainOk(q, i)
    requires q.runs[i].previous.Some? ==>
               var p := q.runs[i].previous.value; p < i && q.runs[p].state == Settled && InTurn(q, p)
    ensures InTurn(q, i)
  {
  }

  lemma BeginInTurn(q: Queue, i: nat)
    requires Inv(q) && CanBegin(q, i)
    ensures InTurn(q, i)
  {
    assert RunOk(q, i);
    assert q.runs[i].previous.Some? ==> RunOk(q, q.runs[i].previous.value);
    BehindSettled(q, i);
  }

  /** A change of state or of `left` moves no run and no link. */
  lemma SameShape(q: Queue, r: Queue, i: nat)
    requires |r.runs| == |q.runs| && i < |q.runs|
    requires forall j :: 0 <= j < |q.runs| ==> r.runs[j].key == q.runs[j].key && r.runs[j].previous == q.runs[j].previous
    requires forall j :: 0 <= j < |q.runs| && q.runs[j].state == Settled ==> r.runs[j].state == Settled
    ensures InTurn(q, i) ==> InTurn(r, i)
    ensures ChainOk(q, i) ==> ChainOk(r, i)
  {
    if InTurn(q, i) {
      forall j | 0 <= j < i && r.runs[j].key == r.runs[i].key ensures r.runs[j].state == Settled {
        assert q.runs[j].key == q.runs[i].key;
      }
    }
  }

  lemma EnterKeepsInv(q: Queue, key: string)
    requires Inv(q)
    ensures Inv(EnterRun(q, key))
  {
    var next := EnterRun(q, key);
    EnterKeepsEntries(q, key);
    forall i: nat | i < |next.runs| ensures RunOk(next, i) {
      EnterKeepsChains(q, key, i);
      assert i < |q.runs| ==> RunOk(q, i);
    }
  }

  /** The runs of a queue in which one run changed its state or its caller left. */
  lemma ChangeKeepsRuns(q: Queue, r: Queue, i: nat)
    requires i < |q.runs| && forall j: nat :: j < |q.runs| ==> RunOk(q, j)
    requires |r.runs| == |q.runs| && r.runs == q.runs[i := r.runs[i]]
    requires r.runs[i].key == q.runs[i].key && r.runs[i].previous == q.runs[i].previous
    requires q.runs[i].state == Settled ==> r.runs[i].state == Settled
    requires r.runs[i].state != Waiting ==> InTurn(q, i)
    requires r.runs[i].left ==> r.runs[i].state == Settled
    ensures forall j: nat :: j < |r.runs| ==> RunOk(r, j)
  {
    forall j: nat | j < |r.runs| ensures RunOk(r, j) {
      assert RunOk(q, j);
      SameShape(q, r, j);
    }
  }

  /** The map stays right when no key, no `left` and no latest run changes. */
  lemma SameEntries(q: Queue, r: Queue)
    requires EntriesOk(q) && |r.runs| == |q.runs| && r.entries == q.entries
    requires forall j :: 0 <= j < |q.runs| ==> r.runs[j].key == q.runs[j].key && r.runs[j].left == q.runs[j].left
    ensures EntriesOk(r)
  {
    forall i: nat | i < |q.runs| ensures Latest(r, i) == Latest(q, i) {
      LatestByKeys(q, r, i);
    }
  }

  lemma LatestByKeys(q: Queue, r: Queue, i: nat)
    requires |r.runs| == |q.runs| && i < |q.runs|
    requires forall j :: 0 <= j < |q.runs| ==> r.runs[j].key == q.runs[j].key
    ensures Latest(r, i) == Latest(q, i)
  {
    if Latest(q, i) {
      forall j | i < j < |r.runs| ensures r.runs[j].key != r.runs[i].key {
        assert q.runs[j].key != q.runs[i].key;
      }
    }
    if Latest(r, i) {
      forall j | i < j < |q.runs| ensures q.runs[j].key != q.runs[i].key {
        assert r.runs[j].key != r.runs[i].key;
      }
    }
  }

  lemma MoveKeepsInv(q: Queue, i: nat, state: RunState)
    requires Inv(q) && i < |q.runs| && !q.runs[i].left && q.runs[i].state != Settled
    requires state != Waiting && InTurn(q, i)
    ensures Inv(q.(runs := q.runs[i := q.runs[i].(state := state)]))
  {
    var r := q.(runs := q.runs[i := q.runs[i].(state := state)]);
    SameEntries(q, r);
    ChangeKeepsRuns(q, r, i);
  }

  lemma LeaveKeepsEntries(q: Queue, i: nat)
    requires EntriesOk(q) && i < |q.runs|
    ensures EntriesOk(LeaveRun(q, i))
  {
    var r := LeaveRun(q, i);
    forall j: nat | j < |q.runs| ensures Latest(r, j) == Latest(q, j) {
      LatestByKeys(q, r, j);
    }
    forall j: nat | j < |q.runs| && j != i && Latest(q, j) && Latest(q, i) ensures q.runs[j].key != q.runs[i].key {
    }
  }

  lemma LeaveKeepsInv(q: Queue, i: nat)
    requires Inv(q) && Enabled(q, Leave(i))
    ensures Inv(LeaveRun(q, i))
  {
    LeaveKeepsEntries(q, i);
    assert RunOk(q, i);
    ChangeKeepsRuns(q, LeaveRun(q, i), i);
  }

  lemma StepKeepsInv(q: Queue, a: Action)
    requires Inv(q) && Enabled(q, a)
    ensures Inv(Step(q, a))
  {
    match a
    case Enter(key) => EnterKeepsInv(q, key);
    case Begin(i) =>
      BeginInTurn(q, i);
      assert RunOk(q, i);
      MoveKeepsInv(q, i, Running);
    case Settle(i) =>
      assert RunOk(q, i);
      MoveKeepsInv(q, i, Settled);
    case Leave(i) => LeaveKeepsInv(q, i);
  }

  // ---------------------------------------------------------------- the claims

  /** Runs of one key never overlap, and they run in the order in which they entered. */
  lemma OneRunPerKey(q: Queue, i: nat, j: nat)
    requires Inv(q) && i < j < |q.runs| && q.runs[i].key == q.runs[j].key
    requires q.runs[j].state != Waiting
    ensures q.runs[i].state == Settled
  {
    assert RunOk(q, j);
  }

  /** Run `i` is the latest run of the key, and its caller has not left it. */
  ghost predicate AwaitedLatest(q: Queue, key: string, i: nat) {
    i < |q.runs| && q.runs[i].key == key && Latest(q, i) && !q.runs[i].left
  }

  /**
   * The map has an entry for a key exactly while the latest run of that key has not been left. Without
   * an entry all runs of the key have settled, and once all are left there is none.
   */
  lemma EntryIffBusy(q: Queue, key: string)
    requires Inv(q)
    ensures key in q.entries <==> exists i :: AwaitedLatest(q, key, i)
    ensures key !in q.entries ==> forall i :: 0 <= i < |q.runs| && q.runs[i].key == key ==> q.runs[i].state == Settled
    ensures (forall i :: 0 <= i < |q.runs| && q.runs[i].key == key ==> q.runs[i].left) ==> key !in q.entries
  {
    if key in q.entries {
      assert AwaitedLatest(q, key, q.entries[key]);
    } else {
      forall i: nat | i < |q.runs| && q.runs[i].key == key ensures q.runs[i].state == Settled {
        NoEntryMeansSettled(q, i);
      }
    }
  }

  /** No deadlock: while a run of a key waits, some run of that key is running or can begin. */
  lemma {:induction false} WaitingRunMakesProgress(q: Queue, i: nat) returns (j: nat)
    requires Inv(q) && i < |q.runs| && q.runs[i].state == Waiting
    ensures j <= i && q.runs[j].key == q.runs[i].key
    ensures q.runs[j].state == Running || CanBegin(q, j)
  {
    assert RunOk(q, i);
    j := i;
    if !CanBegin(q, i) {
      var p := q.runs[i].previous.value;
      if q.runs[p].state == Running {
        j := p;
      } else {
        j := WaitingRunMakesProgress(q, p);
      }
    }
  }
}
