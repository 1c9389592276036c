# ServiceConnectionManager, modelled in Dafny

`ServiceConnectionManager` is an Android helper. It binds a client to a
background service and lets the client run commands against the service's
binder without tracking whether the binding is up. It holds four pieces of
state:

- `mService`: the binder, present only while the service is connected.
- `mServiceConnectionListeners`: a `LinkedHashSet` of connection listeners.
- `mCommandQueue`: a FIFO of `WeakReference`s to commands submitted while unbound.
- `mHandler`: the main thread's handler; its message queue holds posted tasks.

`runCommand` posts the command to the handler when bound and queues a weak
reference to it when unbound. When the service connects, the manager stores the
binder, notifies every listener in insertion order, and then drains the queue.
Each live reference is posted; each cleared one is dropped. When the service
disconnects, the manager clears the binder, removes every task still waiting
in the handler, and notifies every listener. A posted task reads `mService`
when it runs, not when it was posted.

The model has four modules:

- `Collections` (`collections.dfy`): `LinkedHashSet.add` as `Insert` and
  `Collection.remove(Object)` as `RemoveFirst`, over sequences.
- `WeakQueue` (`weak_queue.dfy`): the weak-reference queue. `Live` gives what
  a full drain hands on; `ClearRefs` is what the collector does to the queue.
- `ServiceConnectionManager` (`service_connection_manager.dfy`): the class
  `Manager`. Its fields are `service`, `listeners`, `commandQueue`, `tasks`
  (the handler's queue) and `trace`. `trace` records every call the manager
  makes on a listener, the handler or a command. `Valid()` is the invariant
  that every operation keeps:
  - the listener set has no duplicates;
  - nothing waits in the command queue while bound;
  - no task is posted while unbound, so no task ever runs without a binder.
- `ServiceConnectionManagerScenarios` (`scenarios.dfy`): the unit tests and
  further end-to-end runs as client methods on a fresh manager. Each states
  the whole resulting trace of calls, except `InitiallyUnbound`, which
  states the handle `getService` returns.

The binder, command and listener types are type parameters `H`, `C` and `L`.
Commands and listeners are compared with `equals()`, as `LinkedHashSet` and
the queue compare them; that is identity unless a class overrides it. The
main looper is modelled as the environment steps `RunNextTask` and
`RunAllTasks`. The garbage collector is the environment step
`Collect`.

Three points of the code shape the model:
- The code catches no exception thrown by a listener or a command, so none is
  modelled.
- `stop` only unbinds and does not clear `mService`.
- `cancelCommand` removes nothing (see Findings). The rest of the model uses
  the corrected `CancelCommand`.

## Model

Paths are relative to the repository root. `ServiceConnectionManager.java` is
`service-connection-manager/src/main/java/com/devbytes/cluster/ServiceConnectionManager.java`.

| member | source | states |
|---|---|---|
| `Collections.Insert` | service-connection-manager/src/main/java/com/devbytes/cluster/ServiceConnectionManager.java:89-91 | after add the listener is present; nothing else is added; adding a present listener changes nothing; a new listener goes last; the existing listeners keep their order as a prefix; no duplicates arise |
| `Collections.RemoveFirst` | service-connection-manager/src/main/java/com/devbytes/cluster/ServiceConnectionManager.java:93-95 | remove of an absent element changes nothing; otherwise the sequence loses exactly one element |
| `Collections.RemoveFirstAt` | service-connection-manager/src/main/java/com/devbytes/cluster/ServiceConnectionManager.java:93-95 | the element removed is the one at the first index holding it, and the rest keep their order |
| `Collections.RemoveFromSet` | service-connection-manager/src/main/java/com/devbytes/cluster/ServiceConnectionManager.java:93-95 | on a duplicate-free listener sequence, removal drops that listener, keeps every other one, and keeps the sequence duplicate-free |
| `Collections.InsertThenRemove` | service-connection-manager/src/main/java/com/devbytes/cluster/ServiceConnectionManager.java:89-95 | adding a previously absent listener and then removing it restores the listener sequence exactly |
| `WeakQueue.Live` | service-connection-manager/src/main/java/com/devbytes/cluster/ServiceConnectionManager.java:152-159 | the drain hands on at most as many commands as the queue has entries |
| `WeakQueue.LiveMembership` | service-connection-manager/src/main/java/com/devbytes/cluster/ServiceConnectionManager.java:152-159 | a command is handed on by the drain exactly when the queue holds a live reference to it (both directions) |
| `WeakQueue.LiveMultiplicity` | service-connection-manager/src/main/java/com/devbytes/cluster/ServiceConnectionManager.java:152-159 | each live entry is handed on exactly once: a command's count in the drain equals the number of its live entries |
| `WeakQueue.LiveAppend` | service-connection-manager/src/main/java/com/devbytes/cluster/ServiceConnectionManager.java:152-159 | draining a queue made of two parts hands on the first part's commands and then the second's, so FIFO order is kept |
| `WeakQueue.Enqueued` | service-connection-manager/src/main/java/com/devbytes/cluster/ServiceConnectionManager.java:106 | submitting commands while unbound yields one fresh, uncleared reference per command, in order |
| `WeakQueue.LiveEnqueued` | service-connection-manager/src/main/java/com/devbytes/cluster/ServiceConnectionManager.java:102-107 | a queue of uncollected submissions drains to exactly the submitted commands, in submission order |
| `WeakQueue.ClearRefs` | service-connection-manager/src/main/java/com/devbytes/cluster/ServiceConnectionManager.java:60 | collecting a command clears every reference to it and no other; the entries keep their referents and positions |
| `WeakQueue.LiveClearRefs` | service-connection-manager/src/main/java/com/devbytes/cluster/ServiceConnectionManager.java:154-157 | after a command is collected, the drain hands on every other command as before and never that one; a cleared entry is dropped without error |
| `WeakQueue.LiveRemoveFirst` | service-connection-manager/src/main/java/com/devbytes/cluster/ServiceConnectionManager.java:110-112 | removing the first live reference to a command removes exactly the first occurrence of that command from what the drain hands on |
| `ServiceConnectionManager.ConnectedCalls` | service-connection-manager/src/main/java/com/devbytes/cluster/ServiceConnectionManager.java:147-149 | a connected notification loop makes exactly one call per listener |
| `ServiceConnectionManager.ConnectedCallsAt` | service-connection-manager/src/main/java/com/devbytes/cluster/ServiceConnectionManager.java:147-149 | the i-th call of that loop is onServiceConnected on the i-th listener, with the stored handle |
| `ServiceConnectionManager.ConnectedCallsAppend` | service-connection-manager/src/main/java/com/devbytes/cluster/ServiceConnectionManager.java:147-149 | the loop over two runs of listeners makes the first run's calls, then the second's |
| `ServiceConnectionManager.DisconnectedCalls` | service-connection-manager/src/main/java/com/devbytes/cluster/ServiceConnectionManager.java:169-171 | a disconnected notification loop makes exactly one call per listener |
| `ServiceConnectionManager.DisconnectedCallsAt` | service-connection-manager/src/main/java/com/devbytes/cluster/ServiceConnectionManager.java:169-171 | the i-th call of that loop is onServiceDisconnected on the i-th listener |
| `ServiceConnectionManager.DisconnectedCallsAppend` | service-connection-manager/src/main/java/com/devbytes/cluster/ServiceConnectionManager.java:169-171 | the loop over two runs of listeners makes the first run's calls, then the second's |
| `ServiceConnectionManager.Posts` | service-connection-manager/src/main/java/com/devbytes/cluster/ServiceConnectionManager.java:175-176 | exactly one handler post per command |
| `ServiceConnectionManager.PostsAt` | service-connection-manager/src/main/java/com/devbytes/cluster/ServiceConnectionManager.java:175-176 | the i-th post carries the i-th command |
| `ServiceConnectionManager.Runs` | service-connection-manager/src/main/java/com/devbytes/cluster/ServiceConnectionManager.java:176-182 | exactly one command.run per task |
| `ServiceConnectionManager.RunsAt` | service-connection-manager/src/main/java/com/devbytes/cluster/ServiceConnectionManager.java:176-182 | the i-th run is of the i-th task's command, with the given handle |
| `ServiceConnectionManager.PostsAppend` | service-connection-manager/src/main/java/com/devbytes/cluster/ServiceConnectionManager.java:175-176 | posting two runs of commands back to back posts the first run and then the second |
| `ServiceConnectionManager.RunsAppend` | service-connection-manager/src/main/java/com/devbytes/cluster/ServiceConnectionManager.java:176-182 | running two stretches of tasks back to back runs the first stretch and then the second |
| `ServiceConnectionManager.Manager.constructor` | service-connection-manager/src/main/java/com/devbytes/cluster/ServiceConnectionManager.java:54-72 | a new manager has no handle, no listeners, no pending commands, no posted tasks, and satisfies the invariant |
| `ServiceConnectionManager.Manager.AddServiceConnectionListener` | service-connection-manager/src/main/java/com/devbytes/cluster/ServiceConnectionManager.java:89-91 | the listener set becomes `Insert` of the old one; handle, queue, tasks and trace are unchanged, so a listener added while bound is not notified |
| `ServiceConnectionManager.Manager.RemoveServiceConnectionListener` | service-connection-manager/src/main/java/com/devbytes/cluster/ServiceConnectionManager.java:93-95 | the listener is gone, every other listener stays in order, and nothing else changes |
| `ServiceConnectionManager.Manager.RunCommand` | service-connection-manager/src/main/java/com/devbytes/cluster/ServiceConnectionManager.java:102-108 | bound: exactly one task for the command is posted at the tail and the queue is unchanged. Unbound: exactly one live entry is appended at the queue's tail, nothing is posted (the handler stays empty) and nothing runs |
| `ServiceConnectionManager.Manager.CancelCommandAsWritten` | service-connection-manager/src/main/java/com/devbytes/cluster/ServiceConnectionManager.java:110-112 | as written, the pending queue is left exactly as it was |
| `ServiceConnectionManager.Manager.CancelCommand` | service-connection-manager/src/main/java/com/devbytes/cluster/ServiceConnectionManager.java:110-112 | removes the first live entry for the command and so at most one entry; the drain loses exactly that command's first occurrence; handle, listeners, tasks and trace are untouched |
| `ServiceConnectionManager.Manager.GetService` | service-connection-manager/src/main/java/com/devbytes/cluster/ServiceConnectionManager.java:119-121 | returns exactly the stored handle; when it is absent no task is posted, and when it is present no command waits |
| `ServiceConnectionManager.Manager.RunCommandInternal` | service-connection-manager/src/main/java/com/devbytes/cluster/ServiceConnectionManager.java:175-183 | appends one task for the command to the handler's queue and records the post; nothing else changes |
| `ServiceConnectionManager.Manager.OnServiceConnected` | service-connection-manager/src/main/java/com/devbytes/cluster/ServiceConnectionManager.java:143-160 | the handle becomes h and the queue empty. The appended tasks are exactly the live pending commands in FIFO order. The trace gains each listener's notification in order and only then the posts |
| `ServiceConnectionManager.Manager.NotifyConnected` | service-connection-manager/src/main/java/com/devbytes/cluster/ServiceConnectionManager.java:146-149 | the notification loop calls every listener, in iteration order, with the stored handle, and changes nothing else |
| `ServiceConnectionManager.Manager.DrainCommandQueue` | service-connection-manager/src/main/java/com/devbytes/cluster/ServiceConnectionManager.java:151-159 | the poll loop empties the queue and posts exactly `Live` of the old queue, in order |
| `ServiceConnectionManager.Manager.OnServiceDisconnected` | service-connection-manager/src/main/java/com/devbytes/cluster/ServiceConnectionManager.java:163-172 | the handle is cleared and every unrun task is removed. The trace gains the removal and then every listener's notification in order. The pending queue is untouched |
| `ServiceConnectionManager.Manager.RunNextTask` | service-connection-manager/src/main/java/com/devbytes/cluster/ServiceConnectionManager.java:176-182 | the head task runs its command with the handle current at run time, which is always present |
| `ServiceConnectionManager.Manager.RunAllTasks` | service-connection-manager/src/main/java/com/devbytes/cluster/ServiceConnectionManager.java:176-182 | every posted task runs once, in posting order, with the current handle, and the handler ends empty |
| `ServiceConnectionManager.Manager.Collect` | service-connection-manager/src/main/java/com/devbytes/cluster/ServiceConnectionManager.java:60 | clearing a command's weak references removes it from what the drain will post; posted tasks are unaffected |
| `ServiceConnectionManagerScenarios.QueueCommand` | service-connection-manager/src/test/java/com/devbytes/cluster/ServiceConnectionManagerTest.java:45-50 | a command submitted before connection is queued once and nothing is called on it |
| `ServiceConnectionManagerScenarios.InitiallyUnbound` | service-connection-manager/src/main/java/com/devbytes/cluster/ServiceConnectionManager.java:119-121 | getService on a new manager returns no handle |
| `ServiceConnectionManagerScenarios.RunCommandImmediately` | service-connection-manager/src/test/java/com/devbytes/cluster/ServiceConnectionManagerTest.java:52-58 | after connection a submitted command is posted and runs exactly once with the binder |
| `ServiceConnectionManagerScenarios.RunCommandsInOrder` | service-connection-manager/src/test/java/com/devbytes/cluster/ServiceConnectionManagerTest.java:60-72 | a command queued before connection runs before one submitted after it, both with the same binder |
| `ServiceConnectionManagerScenarios.ConnectAfterQueueing` | service-connection-manager/src/main/java/com/devbytes/cluster/ServiceConnectionManager.java:143-160 | for any listeners and any commands queued before connection: all listeners are notified in order first; the queued commands are then posted in submission order, then the later one; all run once, in that order, with the new handle |
| `ServiceConnectionManagerScenarios.CancelBeforeConnect` | service-connection-manager/src/main/java/com/devbytes/cluster/ServiceConnectionManager.java:110-112 | with the corrected cancel, a command cancelled while queued is never posted or run |
| `ServiceConnectionManagerScenarios.CancelAsWrittenStillRuns` | service-connection-manager/src/main/java/com/devbytes/cluster/ServiceConnectionManager.java:110-112 | with cancel as written, a command cancelled while queued is still posted and run after connection |
| `ServiceConnectionManagerScenarios.CollectedCommandDropped` | service-connection-manager/src/main/java/com/devbytes/cluster/ServiceConnectionManager.java:152-159 | a queued command whose reference was cleared is dropped silently: nothing is posted or run |
| `ServiceConnectionManagerScenarios.Reconnect` | service-connection-manager/src/main/java/com/devbytes/cluster/ServiceConnectionManager.java:163-172 | across disconnect and reconnect, each command runs with the binder of the binding it was dispatched in |
| `ServiceConnectionManagerScenarios.StaleTaskDiscarded` | service-connection-manager/src/main/java/com/devbytes/cluster/ServiceConnectionManager.java:166 | a task posted but not run when the service disconnects never runs, even after a reconnection |
| `ServiceConnectionManagerScenarios.DisconnectNotifiesInOrder` | service-connection-manager/src/main/java/com/devbytes/cluster/ServiceConnectionManager.java:169-171 | listeners hear of connection and of disconnection in registration order, and the disconnection notices come after the handler's tasks are removed |
| `ServiceConnectionManagerScenarios.LateListenerNotNotified` | service-connection-manager/src/main/java/com/devbytes/cluster/ServiceConnectionManager.java:89-91 | a listener added while bound receives no call, and getService returns the current binder |

## Left out

- `start`, `stop`, `getConnectionFlags`, `getServiceClass`, the `Context` and the binding `Intent` (ServiceConnectionManager.java:65-87, 123-137): Android binding plumbing. `stop` does not clear `mService`, so it would change no modelled state.
- Concurrency is not modelled: `ConcurrentLinkedQueue`'s thread safety, the unlocked `LinkedHashSet` iteration, and Handler/Looper timing. The model is one sequential interleaving of calls, callbacks and looper steps.
- Garbage collection is the explicit step `Collect`, which clears every weak reference to one command. When the collector runs, and whether the submitter still holds the command, are not modelled.
- Exceptions thrown by listeners or commands are not modelled. The source does not catch them.
- Reentrancy is not modelled: a listener or command that calls back into the manager while it is notified or run.
- A null binder passed to `onServiceConnected` is not modelled: `OnServiceConnected` takes a present handle. With a null binder the source would notify listeners with null, stay unbound in `runCommand`'s eyes, and still post the drained commands.
- Null commands and null listeners are not modelled: the types `C` and `L` have no null, and the source checks for null nowhere (ServiceConnectionManager.java:89-91, 102-107). In the source, a null command submitted while unbound is queued inside a `WeakReference` and dropped at the drain like a cleared reference (lines 154-155). A null command submitted while bound posts a task that throws `NullPointerException` when it runs (line 180). A null listener in the set makes the notification loop throw at line 148 or 170, so the listeners after it are not notified.
- The handler is private to the manager. `removeCallbacksAndMessages(null)` is modelled as emptying the whole task queue, which holds only this manager's tasks.
- `NotifyConnected` and `DrainCommandQueue` are the two loops of `onServiceConnected`, written as separate methods. This changes nothing in the model's order of effects.

## Findings

| source | as written | input that shows it | evidently intended | confidence | as-written member | corrected member |
|---|---|---|---|---|---|---|
| service-connection-manager/src/main/java/com/devbytes/cluster/ServiceConnectionManager.java:110-112 | `mCommandQueue.remove(command)` searches a queue of `WeakReference` wrappers for an element equal to the command. For a command that keeps `Object.equals`, no wrapper equals it, so nothing is ever removed | `runCommand(c)` while unbound, then `cancelCommand(c)`, then `onServiceConnected(h)`: `c` is still posted and runs with `h` | remove the first pending entry whose referent is the command, so a cancelled queued command never runs | high; not executed | `ServiceConnectionManagerScenarios.CancelAsWrittenStillRuns` (on `ServiceConnectionManager.Manager.CancelCommandAsWritten`) | `ServiceConnectionManager.Manager.CancelCommand`, with `WeakQueue.LiveRemoveFirst` and `ServiceConnectionManagerScenarios.CancelBeforeConnect` |
