/**
 * The repository as the object it is: methods that update the queue map, the tags of the records in
 * memory and the storage in place, one method for each stretch of code between two awaits. Each is
 * proved to take the step of the state machine in ParentConnection, about which ownership is proved.
 */
module ParentConnectionRepositories {
  import opened Options
  import opened ParentConnection
  import KeyedQueue

  /** What every run keeps: the queue always, ownership while no record is saved twice. */
  ghost predicate Kept(cfg: Config, s: State) {
    KeyedQueue.Inv(s.queue) && Aligned(s) && (!cfg.resaves ==> Inv(cfg, s))
  }

  lemma StepKeeps(cfg: Config, s: State, a: Action)
    requires Kept(cfg, s) && Enabled(cfg, s, a)
    ensures Kept(cfg, Step(cfg, s, a))
  {
    StepKeepsQueue(cfg, s, a);
    StepKeepsAligned(cfg, s, a);
    if !cfg.resaves {
      StepKeepsInv(cfg, s, a);
    }
  }

  class ParentConnectionRepository {
    var oobs: map<string, OutOfBand>
    var records: map<string, Connection>
    var connections: map<string, Connection>
    var runs: seq<KeyedQueue.Run>
    var savingForOutOfBand: map<string, nat>
    var saves: seq<Save>
    var called: set<string>

    constructor ()
      ensures View() == START && forall cfg :: Kept(cfg, View())
    {
      oobs, records, connections := map[], map[], map[];
      runs, savingForOutOfBand, saves, called := [], map[], [], {};
    }

    function View(): State
      reads this
    {
      State(oobs, records, connections, KeyedQueue.Queue(runs, savingForOutOfBand), saves, called)
    }

    /** Chains behind the run that the map holds for the invitation. */
    method Enqueue(record: string, key: string) returns (run: nat)
      modifies this`runs, this`saves, this`savingForOutOfBand, this`called
      ensures run == |old(runs)|
      ensures View() == old(View()).(queue := KeyedQueue.EnterRun(old(View()).queue, key),
                                     saves := old(saves) + [Save(record, key, Chained)], called := old(called) + {record})
    {
      var previous := None;
      if key in savingForOutOfBand {
        previous := Some(savingForOutOfBand[key]);
      }
      run := |runs|;
      runs := runs + [KeyedQueue.Run(key, previous, KeyedQueue.Waiting, false)];
      saves := saves + [Save(record, key, Chained)];
      savingForOutOfBand := savingForOutOfBand[key := run];
      called := called + {record};
    }

    /** `save`, up to its `await run`. */
    method SaveRecord(cfg: Config, record: string) returns (run: Option<nat>)
      requires Kept(cfg, View()) && record in records
      modifies this
      ensures old(records[record].outOfBandId).None? ==>
                run == None &&
                View() == if record in old(connections) then old(View()) else Step(cfg, old(View()), PlainSave(record))
      ensures old(records[record].outOfBandId).Some? ==> run == Some(|old(runs)|)
      ensures old(Enabled(cfg, View(), CallSave(record))) ==> View() == Step(cfg, old(View()), CallSave(record))
      ensures run == None || old(Enabled(cfg, View(), CallSave(record))) ==> Kept(cfg, View())
    {
      if Enabled(cfg, View(), CallSave(record)) {
        StepKeeps(cfg, View(), CallSave(record));
      } else if Enabled(cfg, View(), PlainSave(record)) {
        StepKeeps(cfg, View(), PlainSave(record));
      }
      var outOfBandId := records[record].outOfBandId;
      if outOfBandId.None? {
        if record !in connections {
          connections := connections[record := records[record]];
        }
        return None;
      }
      var position := Enqueue(record, outOfBandId.value);
      return Some(position);
    }

    /** The `finally` of `save`. */
    method Finally(cfg: Config, run: nat)
      requires Kept(cfg, View()) && Enabled(cfg, View(), CleanUp(run))
      modifies this
      ensures View() == Step(cfg, old(View()), CleanUp(run)) && Kept(cfg, View())
    {
      StepKeeps(cfg, View(), CleanUp(run));
      var key := runs[run].key;
      if key in savingForOutOfBand && savingForOutOfBand[key] == run {
        savingForOutOfBand := savingForOutOfBand - {key};
      }
      runs := runs[run := runs[run].(left := true)];
    }

    /** `tagAndSave` starts: the read of the out-of-band record is on its way. */
    method TagAndSave(cfg: Config, run: nat)
      requires Kept(cfg, View()) && Enabled(cfg, View(), BeginSave(run))
      modifies this
      ensures View() == Step(cfg, old(View()), BeginSave(run)) && Kept(cfg, View())
    {
      StepKeeps(cfg, View(), BeginSave(run));
      runs := runs[run := runs[run].(state := KeyedQueue.Running)];
      saves := saves[run := saves[run].(stage := Finding)];
    }

    /** The tags go onto the record in memory. */
    method SetTags(run: nat, id: string, oob: OutOfBand)
      requires SaveAt(View(), run)
      modifies this`records
      ensures records == old(records)[saves[run].record := CopyTags(old(records)[saves[run].record], id, oob)]
    {
      var record := saves[run].record;
      if oob.parent.Some? {
        records := records[record := records[record].(parent := oob.parent)];
      }
      if oob.invitationRecord {
        records := records[record := records[record].(invitationId := Some(id))];
      }
      assert records == old(records)[record := CopyTags(old(records)[record], id, oob)];
    }

    /** The read has returned: the first part of `isConsumed`. */
    method OnFound(cfg: Config, run: nat)
      requires Kept(cfg, View()) && Enabled(cfg, View(), Found(run))
      modifies this
      ensures View() == Step(cfg, old(View()), Found(run)) && Kept(cfg, View())
    {
      StepKeeps(cfg, View(), Found(run));
      var id := saves[run].oob;
      if id in oobs {
        var oob := oobs[id];
        var consumed := false;
        if !oob.reusable && oob.invitationRecord {
          if !oob.done {
            saves := saves[run := saves[run].(stage := Querying(oob))];
            return;
          }
          consumed := true;
        }
        if !consumed {
          SetTags(run, id, oob);
        }
      }
      saves := saves[run := saves[run].(stage := Storing)];
    }

    /** The query for the claims has returned: the rest of `isConsumed`. */
    method OnQueried(cfg: Config, run: nat)
      requires Kept(cfg, View()) && Enabled(cfg, View(), Queried(run))
      modifies this
      ensures View() == Step(cfg, old(View()), Queried(run)) && Kept(cfg, View())
    {
      StepKeeps(cfg, View(), Queried(run));
      var save := saves[run];
      var claimed := set c | c in connections && connections[c].invitationId == Some(save.oob);
      var others := claimed - {save.record};
      assert others != {} <==> ClaimedByOther(connections, save.oob, save.record) by {
        if c :| c in connections && connections[c].invitationId == Some(save.oob) && c != save.record {
          assert c in others;
        }
      }
      if others == {} {
        SetTags(run, save.oob, save.stage.found);
      }
      saves := saves[run := save.(stage := Storing)];
    }

    /** Storage has taken the record; the run resolves, or rejects if the write throws all the same. */
    method OnStored(cfg: Config, run: nat, resolves: bool)
      requires Kept(cfg, View()) && Enabled(cfg, View(), Stored(run, resolves))
      modifies this
      ensures View() == Step(cfg, old(View()), Stored(run, resolves)) && Kept(cfg, View())
    {
      StepKeeps(cfg, View(), Stored(run, resolves));
      connections := connections[saves[run].record := records[saves[run].record]];
      saves := saves[run := saves[run].(stage := if resolves then Returned else Threw)];
      runs := runs[run := runs[run].(state := KeyedQueue.Settled)];
    }

    /** An await of `tagAndSave` has thrown; the run rejects, and the tags on the record stay. */
    method OnFailed(cfg: Config, run: nat)
      requires Kept(cfg, View()) && Enabled(cfg, View(), Failed(run))
      modifies this
      ensures View() == Step(cfg, old(View()), Failed(run)) && Kept(cfg, View())
    {
      StepKeeps(cfg, View(), Failed(run));
      saves := saves[run := saves[run].(stage := Threw)];
      runs := runs[run := runs[run].(state := KeyedQueue.Settled)];
    }
  }
}
