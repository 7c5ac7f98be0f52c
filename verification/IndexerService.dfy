/**
 * The service object of the indexer synchronisation. Its methods update the fields step by step, as
 * the source does between two awaits, and compute the client functions of IndexerProtocol.
 *
 * Models packages/agent-sdk/src/blockchain/IndexerWebSocketService.ts.
 */
module IndexerService {
  import opened Options
  import opened IndexerSync
  import opened VeranaHelpers
  import opened IndexerProtocol

  class IndexerWebSocketService {
    const store: SyncStateStore
    var generation: nat
    var stopped: bool
    var syncing: bool
    var phase: Phase
    var everSynced: bool
    var socket: Socket
    var reconnectTimer: bool
    var reconnectAttempt: nat
    var syncBuffer: seq<Event>
    var chain: seq<Task>
    var running: Option<Running>
    var connection: Connection

    function View(): Client
      reads this
    {
      Client(generation, stopped, syncing, phase, everSynced, socket, reconnectTimer, reconnectAttempt,
             syncBuffer, chain, running, connection)
    }

    constructor (store: SyncStateStore)
      ensures View() == NEW_CLIENT && this.store == store
    {
      this.store := store;
      generation, stopped, syncing, phase, everSynced := 0, false, false, Connecting, false;
      socket, reconnectTimer, reconnectAttempt := NoSocket, false, 0;
      syncBuffer, chain, running, connection := [], [], None, Idle;
    }

    method Start()
      modifies this
      ensures View() == IndexerProtocol.Connect(old(View()).(stopped := false))
    {
      stopped := false;
      Connect();
    }

    method Stop()
      modifies this
      ensures View() == IndexerProtocol.Stop(old(View()))
    {
      stopped := true;
      reconnectTimer := false;
      socket := NoSocket;
      connection := Idle;
    }

    method Connect()
      modifies this
      ensures View() == IndexerProtocol.Connect(old(View()))
    {
      if stopped {
        return;
      }
      generation := generation + 1;
      syncing := true;
      phase := Connecting;
      syncBuffer := [];
      socket := Open;
      connection := AwaitSubscribed;
    }

    method ScheduleReconnect()
      modifies this
      ensures View() == IndexerProtocol.ScheduleReconnect(old(View()))
    {
      if reconnectTimer || stopped {
        return;
      }
      reconnectAttempt := reconnectAttempt + 1;
      reconnectTimer := true;
    }

    method ForceReconnect()
      modifies this
      ensures View() == IndexerProtocol.ForceReconnect(old(View()))
    {
      if stopped {
        return;
      }
      phase := Connecting;
      generation := generation + 1;
      connection := Idle;
      socket := NoSocket;
      ScheduleReconnect();
    }

    method OnClose()
      modifies this
      ensures View() == SocketClosed(old(View()))
    {
      if connection == AwaitSubscribed {
        connection := Idle;
      }
      socket := Closed;
      phase := Connecting;
      ScheduleReconnect();
    }

    method RunExclusive(task: Task)
      modifies this
      ensures View() == old(View()).(chain := old(chain) + [task])
    {
      chain := chain + [task];
    }

    method EnqueueLive(event: Event)
      modifies this
      ensures View() == IndexerProtocol.EnqueueLive(old(View()), event)
    {
      RunExclusive(Task(event, generation, Live));
    }

    /** The `block` branch of `handleMessage`. */
    method OnBlock(events: seq<Event>)
      modifies this
      ensures View() == HandleBlock(old(View()), events)
    {
      for i := 0 to |events|
        invariant HandleBlock(View(), events[i..]) == HandleBlock(old(View()), events)
      {
        var event := events[i];
        assert events[i..][1..] == events[i + 1..];
        if !IsProcessable(event) {
          continue;
        }
        if !syncing {
          EnqueueLive(event);
        } else if |syncBuffer| < MAX_SYNC_BUFFER {
          syncBuffer := syncBuffer + [event];
        } else {
          ForceReconnect();
          return;
        }
      }
    }

    /** `drainSyncBuffer`. */
    method DrainSyncBuffer()
      modifies this
      ensures var sorted := SortEventsByPosition(old(syncBuffer));
              View() == old(View()).(syncBuffer := [], chain := old(chain) + LiveTasks(sorted, old(generation)))
    {
      var events := SortEventsByPosition(syncBuffer);
      syncBuffer := [];
      for i := 0 to |events|
        invariant View() == old(View()).(syncBuffer := [], chain := old(chain) + LiveTasks(events[..i], old(generation)))
      {
        EnqueueLive(events[i]);
        assert LiveTasks(events[..i + 1], generation) == LiveTasks(events[..i], generation) + [Task(events[i], generation, Live)];
      }
      assert events[..|events|] == events;
    }

    /** The tail of `connect`, once `syncRest` returned. */
    method GoLive()
      modifies this
      ensures View() == IndexerProtocol.GoLive(old(View()))
    {
      syncing := false;
      phase := Synced;
      everSynced := true;
      connection := Finished;
      DrainSyncBuffer();
    }

    method OnPage(page: seq<Event>)
      requires connection.AwaitPage?
      modifies this
      ensures View() == PageArrives(old(View()), page)
    {
      connection := InPage(connection.cursor, page, SortEventsByPosition(Processable(page)), false);
    }

    method SubmitNext()
      requires connection.InPage? && connection.rest != []
      modifies this
      ensures View() == SubmitEvent(old(View()))
    {
      RunExclusive(Task(connection.rest[0], generation, Rest));
      connection := connection.(submitted := true);
    }

    method TurnPage(pageLimit: nat)
      requires connection.InPage?
      modifies this
      ensures View() == FinishPage(old(View()), pageLimit)
    {
      var next := NextRestCursor(connection.page, connection.cursor, pageLimit);
      if next.done {
        GoLive();
      } else {
        connection := AwaitPage(next.cursor);
      }
    }

    /** The promise of the task resolves. */
    method Return(task: Task)
      modifies this
      ensures View() == TaskReturns(old(View()), task)
    {
      running := None;
      if task.kind == Rest && Active(View(), task) && connection.InPage? && connection.submitted && connection.rest != [] {
        connection := connection.(rest := connection.rest[1..], submitted := false);
      }
    }

    /** The promise of the task rejects. */
    method Reject(task: Task)
      modifies this
      ensures View() == TaskRejects(old(View()), task)
    {
      running := None;
      if task.kind == Live {
        if task.generation == generation {
          ForceReconnect();
        }
      } else if Active(View(), task) {
        connection := CatchUpFailed;
      }
    }

    /** The queue starts its next task: the first check of `applyEvent`. */
    method BeginTask()
      requires running == None && chain != []
      modifies this
      ensures View() == StartTask(old(View()))
    {
      var task := chain[0];
      chain := chain[1..];
      if stopped || task.generation != generation {
        Return(task);
        return;
      }
      running := Some(Running(task, Loading));
    }

    /** `applyEvent` between `loadSyncState` and `fetchActivity`: the two dedup checks. */
    method OnStateLoaded()
      requires running.Some? && running.value.stage == Loading
      modifies this
      ensures View() == StateLoaded(old(View()), store.Load())
    {
      var task := running.value.task;
      var state := store.Load();
      var key := EventKey(task.event);
      if task.event.block <= state.lastBlockHeight {
        Return(task);
        return;
      }
      if Some(task.event.block) == state.partialBlock && key in state.partialKeys {
        Return(task);
        return;
      }
      running := Some(Running(task, Fetching(state)));
    }

    /** `applyEvent` after `fetchActivity`: the second generation check. */
    method OnActivityFetched()
      requires running.Some? && running.value.stage.Fetching?
      modifies this
      ensures View() == ActivityFetched(old(View()))
    {
      var task := running.value.task;
      if stopped || task.generation != generation {
        Return(task);
        return;
      }
      running := Some(Running(task, Applying(running.value.stage.snapshot)));
    }

    /** `applyEvent` after `applyChanges`: the checkpoint moves and is saved. */
    method OnChangesApplied()
      requires running.Some? && running.value.stage.Applying?
      modifies this, store
      ensures View() == StateSaved(old(View()))
      ensures store.Load() == CommitEvent(old(running.value.stage.snapshot), old(running.value.task.event))
    {
      var event := running.value.task.event;
      var state := running.value.stage.snapshot;
      var key := EventKey(event);
      var block, keys := state.partialBlock, state.partialKeys;
      if block == None || event.block > block.value {
        block, keys := Some(event.block), [key];
      } else {
        keys := keys + [key];
      }
      store.Save(SyncState(Max(state.lastBlockHeight, event.block - 1), block, keys));
      running := Some(running.value.(stage := Saved));
    }
  }
}
