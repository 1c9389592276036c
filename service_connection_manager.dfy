/**
 ServiceConnectionManager: holds at most one service handle, an insertion-ordered
 set of connection listeners, a FIFO of weakly held commands waiting for a
 binding, and the main-thread Handler's queue of posted tasks. Commands submitted
 while unbound wait in the queue and are posted, in submission order, when the
 service connects; commands submitted while bound are posted at once. Posted
 tasks run later, one at a time, and each hands its command whatever handle the
 manager holds when the task runs.

 The handle, command and listener types are parameters: H is the binder type B,
 C stands for ServiceCommand<B> objects and L for ServiceConnectionListener<B>
 objects, both compared with equals(), which is identity unless a class
 overrides it.
 */
module ServiceConnectionManager {
  import opened Collections
  import opened WeakQueue

  datatype Option<T> = None | Some(value: T)

  /** A call the manager makes on one of its collaborators, in the order it makes them. */
  datatype Effect<H, C, L> =
    | ListenerConnected(listener: L, handle: H)     // listener.onServiceConnected(mService)
    | ListenerDisconnected(listener: L)             // listener.onServiceDisconnected()
    | Posted(command: C)                            // mHandler.post of a task that runs command
    | TasksRemoved                                  // mHandler.removeCallbacksAndMessages(null)
    | CommandRan(command: C, runWith: Option<H>)    // command.run(mService), from a posted task

  /** The onServiceConnected calls of one notification loop: every listener, in iteration order. */
  function ConnectedCalls<H, C, L>(ls: seq<L>, h: H): (r: seq<Effect<H, C, L>>)
    ensures |r| == |ls|
  {
    if ls == [] then [] else [ListenerConnected(ls[0], h)] + ConnectedCalls(ls[1..], h)
  }

  /** The onServiceDisconnected calls of one notification loop: every listener, in iteration order. */
  function DisconnectedCalls<H, C, L>(ls: seq<L>): (r: seq<Effect<H, C, L>>)
    ensures |r| == |ls|
  {
    if ls == [] then [] else [ListenerDisconnected(ls[0])] + DisconnectedCalls(ls[1..])
  }

  /** One Handler.post per command, in order. */
  function Posts<H, C, L>(cs: seq<C>): (r: seq<Effect<H, C, L>>)
    ensures |r| == |cs|
  {
    if cs == [] then [] else [Posted(cs[0])] + Posts(cs[1..])
  }

  /** The task runs of a handler queue, in order, each command receiving the handle s. */
  function Runs<H, C, L>(cs: seq<C>, s: Option<H>): (r: seq<Effect<H, C, L>>)
    ensures |r| == |cs|
  {
    if cs == [] then [] else [CommandRan(cs[0], s)] + Runs(cs[1..], s)
  }

  /** The i-th call of a connected notification loop goes to the i-th listener, with the handle. */
  lemma {:induction false} ConnectedCallsAt<H, C, L>(ls: seq<L>, h: H, i: nat)
    requires i < |ls|
    ensures ConnectedCalls<H, C, L>(ls, h)[i] == ListenerConnected(ls[i], h)
  {
    if i > 0 {
      ConnectedCallsAt<H, C, L>(ls[1..], h, i - 1);
    }
  }

  /** The i-th call of a disconnected notification loop goes to the i-th listener. */
  lemma {:induction false} DisconnectedCallsAt<H, C, L>(ls: seq<L>, i: nat)
    requires i < |ls|
    ensures DisconnectedCalls<H, C, L>(ls)[i] == ListenerDisconnected(ls[i])
  {
    if i > 0 {
      DisconnectedCallsAt<H, C, L>(ls[1..], i - 1);
    }
  }

  /** The i-th post is of the i-th command. */
  lemma {:induction false} PostsAt<H, C, L>(cs: seq<C>, i: nat)
    requires i < |cs|
    ensures Posts<H, C, L>(cs)[i] == Posted(cs[i])
  {
    if i > 0 {
      PostsAt<H, C, L>(cs[1..], i - 1);
    }
  }

  /** The i-th run is of the i-th task's command, with the given handle. */
  lemma {:induction false} RunsAt<H, C, L>(cs: seq<C>, s: Option<H>, i: nat)
    requires i < |cs|
    ensures Runs<H, C, L>(cs, s)[i] == CommandRan(cs[i], s)
  {
    if i > 0 {
      RunsAt<H, C, L>(cs[1..], s, i - 1);
    }
  }

  /** A notification loop over listeners a then b makes a's calls, then b's. */
  lemma {:induction false} ConnectedCallsAppend<H, C, L>(a: seq<L>, b: seq<L>, h: H)
    ensures ConnectedCalls<H, C, L>(a + b, h) == ConnectedCalls<H, C, L>(a, h) + ConnectedCalls<H, C, L>(b, h)
  {
    if a == [] {
      assert a + b == b;
    } else {
      assert (a + b)[0] == a[0] && (a + b)[1..] == a[1..] + b;
      ConnectedCallsAppend<H, C, L>(a[1..], b, h);
    }
  }

  /** A disconnected notification loop over listeners a then b makes a's calls, then b's. */
  lemma {:induction false} DisconnectedCallsAppend<H, C, L>(a: seq<L>, b: seq<L>)
    ensures DisconnectedCalls<H, C, L>(a + b) == DisconnectedCalls<H, C, L>(a) + DisconnectedCalls<H, C, L>(b)
  {
    if a == [] {
      assert a + b == b;
    } else {
      assert (a + b)[0] == a[0] && (a + b)[1..] == a[1..] + b;
      DisconnectedCallsAppend<H, C, L>(a[1..], b);
    }
  }

  /** Posting two runs of commands back to back posts the first run, then the second. */
  lemma {:induction false} PostsAppend<H, C, L>(a: seq<C>, b: seq<C>)
    ensures Posts<H, C, L>(a + b) == Posts<H, C, L>(a) + Posts<H, C, L>(b)
  {
    if a == [] {
      assert a + b == b;
    } else {
      assert (a + b)[0] == a[0] && (a + b)[1..] == a[1..] + b;
      PostsAppend<H, C, L>(a[1..], b);
    }
  }

  /** Running two stretches of tasks back to back runs the first, then the second. */
  lemma {:induction false} RunsAppend<H, C, L>(a: seq<C>, b: seq<C>, s: Option<H>)
    ensures Runs<H, C, L>(a + b, s) == Runs<H, C, L>(a, s) + Runs<H, C, L>(b, s)
  {
    if a == [] {
      assert a + b == b;
    } else {
      assert (a + b)[0] == a[0] && (a + b)[1..] == a[1..] + b;
      RunsAppend<H, C, L>(a[1..], b, s);
    }
  }

  /** One poll of the drain: the head entry's command, if live, joins those already handed on. */
  lemma {:induction false} PollStep<C>(q: seq<WeakRef<C>>, drained: seq<C>)
    requires q != []
    ensures drained + Live(q) == (drained + (if q[0].live then [q[0].referent] else [])) + Live(q[1..])
  {
  }

  class Manager<H, C(==), L(==)> {
    /** mService: present exactly while the service is bound. */
    var service: Option<H>
    /** mServiceConnectionListeners, in LinkedHashSet iteration (insertion) order. */
    var listeners: seq<L>
    /** mCommandQueue: commands waiting for a binding, front first. */
    var commandQueue: seq<WeakRef<C>>
    /** mHandler's message queue: the commands of posted tasks not yet run, front first. */
    var tasks: seq<C>
    /** Every call made on a listener, the handler or a command so far. */
    var trace: seq<Effect<H, C, L>>

    /**
     The manager's invariant: the listener set holds no duplicates, nothing
     waits in the command queue while bound, and no task is posted while unbound.
     */
    ghost predicate Valid()
      reads this
    {
      && NoDuplicates(listeners)
      && (service.Some? ==> commandQueue == [])
      && (tasks != [] ==> service.Some?)
    }

    /** A new manager is unbound, with no listeners, no pending commands and no posted tasks. */
    constructor ()
      ensures Valid()
      ensures service == None && listeners == [] && commandQueue == [] && tasks == [] && trace == []
    {
      service := None;
      listeners := [];
      commandQueue := [];
      tasks := [];
      trace := [];
    }

    /** addServiceConnectionListener: set insertion; a listener added while bound is not notified. */
    method AddServiceConnectionListener(listener: L)
      requires Valid()
      modifies this
      ensures Valid()
      ensures listeners == Insert(old(listeners), listener)
      ensures service == old(service) && commandQueue == old(commandQueue)
      ensures tasks == old(tasks) && trace == old(trace)
    {
      listeners := Insert(listeners, listener);
    }

    /** removeServiceConnectionListener: set removal, the other listeners keeping their order. */
    method RemoveServiceConnectionListener(listener: L)
      requires Valid()
      modifies this
      ensures Valid()
      ensures listeners == RemoveFirst(old(listeners), listener)
      ensures listener !in listeners
      ensures forall i :: 0 <= i < |old(listeners)| && old(listeners)[i] != listener ==> old(listeners)[i] in listeners
      ensures service == old(service) && commandQueue == old(commandQueue)
      ensures tasks == old(tasks) && trace == old(trace)
    {
      RemoveFromSet(listeners, listener);
      listeners := RemoveFirst(listeners, listener);
    }

    /** runCommand: post the command when bound, otherwise append a weak reference to it. */
    method RunCommand(command: C)
      requires Valid()
      modifies this
      ensures Valid()
      ensures old(service).Some? ==>
        && tasks == old(tasks) + [command]
        && trace == old(trace) + [Posted(command)]
        && commandQueue == old(commandQueue)
      ensures old(service).None? ==>
        && commandQueue == old(commandQueue) + [WeakRef(command, true)]
        && tasks == old(tasks) == []
        && trace == old(trace)
      ensures service == old(service) && listeners == old(listeners)
    {
      if service.Some? {
        RunCommandInternal(command);
      } else {
        commandQueue := commandQueue + [WeakRef(command, true)];
      }
    }

    /**
     cancelCommand as the source writes it: mCommandQueue.remove(command) looks
     for an element equal to the command, but the elements are WeakReference
     wrappers, and no wrapper equals a command that keeps Object.equals, so
     nothing is removed.
     */
    method CancelCommandAsWritten(command: C)
      requires Valid()
      ensures Valid()
      ensures commandQueue == old(commandQueue)
    {
    }

    /**
     cancelCommand as intended: remove the first pending entry whose referent is
     the command. Neither the handle nor the posted tasks are touched.
     */
    method CancelCommand(command: C)
      requires Valid()
      modifies this
      ensures Valid()
      ensures commandQueue == RemoveFirst(old(commandQueue), WeakRef(command, true))
      ensures |old(commandQueue)| - 1 <= |commandQueue| <= |old(commandQueue)|
      ensures Live(commandQueue) == RemoveFirst(Live(old(commandQueue)), command)
      ensures service == old(service) && listeners == old(listeners)
      ensures tasks == old(tasks) && trace == old(trace)
    {
      commandQueue := RemoveFirst(commandQueue, WeakRef(command, true));
      assert Valid();
      LiveRemoveFirst(old(commandQueue), command);
    }

    /** getService: the stored handle; while it is absent nothing is posted, while present nothing waits. */
    method GetService() returns (s: Option<H>)
      requires Valid()
      ensures s == service
      ensures s.None? ==> tasks == []
      ensures s.Some? ==> commandQueue == []
    {
      s := service;
    }

    /** runCommandInternal: post a task that will run the command with the handle current at run time. */
    method RunCommandInternal(command: C)
      modifies this
      ensures tasks == old(tasks) + [command]
      ensures trace == old(trace) + [Posted(command)]
      ensures service == old(service) && listeners == old(listeners) && commandQueue == old(commandQueue)
    {
      tasks := tasks + [command];
      trace := trace + [Posted(command)];
    }

    /**
     mServiceConnection.onServiceConnected: store the handle, notify every
     listener in order, then drain the command queue, posting the command of
     each live reference and dropping cleared ones.
     */
    method OnServiceConnected(h: H)
      requires Valid()
      modifies this
      ensures Valid()
      ensures service == Some(h)
      ensures commandQueue == []
      ensures tasks == old(tasks) + Live(old(commandQueue))
      ensures trace == old(trace) + ConnectedCalls(old(listeners), h) + Posts(Live(old(commandQueue)))
      ensures listeners == old(listeners)
    {
      service := Some(h);
      NotifyConnected();
      DrainCommandQueue();
    }

    /** The listener loop of onServiceConnected: each listener in turn receives the stored handle. */
    method NotifyConnected()
      requires service.Some?
      modifies this
      ensures service == old(service) && listeners == old(listeners)
      ensures trace == old(trace) + ConnectedCalls(listeners, service.value)
      ensures commandQueue == old(commandQueue) && tasks == old(tasks)
    {
      for i := 0 to |listeners|
        invariant service == old(service) && listeners == old(listeners)
        invariant commandQueue == old(commandQueue) && tasks == old(tasks)
        invariant trace == old(trace) + ConnectedCalls(listeners[..i], service.value)
      {
        assert listeners[..i + 1] == listeners[..i] + [listeners[i]];
        ConnectedCallsAppend<H, C, L>(listeners[..i], [listeners[i]], service.value);
        trace := trace + [ListenerConnected(listeners[i], service.value)];
      }
      assert listeners[..|listeners|] == listeners;
    }

    /** The poll loop of onServiceConnected: live references are posted in queue order, cleared ones dropped. */
    method DrainCommandQueue()
      modifies this
      ensures commandQueue == []
      ensures tasks == old(tasks) + Live(old(commandQueue))
      ensures trace == old(trace) + Posts(Live(old(commandQueue)))
      ensures service == old(service) && listeners == old(listeners)
    {
      ghost var pending, posted, calls := commandQueue, tasks, trace;
      ghost var drained: seq<C> := [];
      while commandQueue != []
        invariant service == old(service) && listeners == old(listeners)
        invariant Live(pending) == drained + Live(commandQueue)
        invariant tasks == posted + drained
        invariant trace == calls + Posts(drained)
        decreases |commandQueue|
      {
        var ref := commandQueue[0];
        ghost var handed: seq<C> := if ref.live then [ref.referent] else [];
        PollStep(commandQueue, drained);
        PostsAppend<H, C, L>(drained, handed);
        commandQueue := commandQueue[1..];
        if ref.live {
          RunCommandInternal(ref.referent);
          assert Posts<H, C, L>(handed) == [Posted(ref.referent)];
        }
        drained := drained + handed;
      }
      assert Live(commandQueue) == [];
      assert drained == Live(pending);
    }

    /**
     mServiceConnection.onServiceDisconnected: clear the handle, discard every
     posted task not yet run, then notify every listener in order. The command
     queue is left as it is.
     */
    method OnServiceDisconnected()
      requires Valid()
      modifies this
      ensures Valid()
      ensures service == None
      ensures tasks == []
      ensures trace == old(trace) + [TasksRemoved] + DisconnectedCalls(old(listeners))
      ensures listeners == old(listeners) && commandQueue == old(commandQueue)
    {
      service := None;

      tasks := [];
      trace := trace + [TasksRemoved];

      ghost var cleared := trace;
      for i := 0 to |listeners|
        invariant service == None && tasks == []
        invariant listeners == old(listeners) && commandQueue == old(commandQueue)
        invariant trace == cleared + DisconnectedCalls(listeners[..i])
      {
        assert listeners[..i + 1] == listeners[..i] + [listeners[i]];
        DisconnectedCallsAppend<H, C, L>(listeners[..i], [listeners[i]]);
        trace := trace + [ListenerDisconnected(listeners[i])];
      }
      assert listeners[..|listeners|] == listeners;
    }

    /**
     The main looper runs the task at the head of the handler queue, if any:
     the Runnable posted by runCommandInternal calls command.run(mService),
     reading mService when it runs, not when it was posted.
     */
    method RunNextTask() returns (ran: bool)
      requires Valid()
      modifies this
      ensures Valid()
      ensures ran == (old(tasks) != [])
      ensures ran ==> service.Some?
      ensures ran ==> tasks == old(tasks)[1..] && trace == old(trace) + [CommandRan(old(tasks)[0], service)]
      ensures !ran ==> tasks == old(tasks) && trace == old(trace)
      ensures service == old(service) && listeners == old(listeners) && commandQueue == old(commandQueue)
    {
      ran := tasks != [];
      if ran {
        var command := tasks[0];
        tasks := tasks[1..];
        trace := trace + [CommandRan(command, service)];
      }
    }

    /** The main looper runs every posted task, in posting order, all against the current handle. */
    method RunAllTasks()
      requires Valid()
      modifies this
      ensures Valid()
      ensures tasks == []
      ensures trace == old(trace) + Runs(old(tasks), service)
      ensures old(tasks) != [] ==> service.Some?
      ensures service == old(service) && listeners == old(listeners) && commandQueue == old(commandQueue)
    {
      ghost var done: seq<C> := [];
      while tasks != []
        invariant Valid()
        invariant old(tasks) == done + tasks
        invariant trace == old(trace) + Runs(done, service)
        invariant service == old(service) && listeners == old(listeners) && commandQueue == old(commandQueue)
        decreases |tasks|
      {
        var command := tasks[0];
        assert old(tasks) == (done + [command]) + tasks[1..];
        RunsAppend<H, C, L>(done, [command], service);
        assert Runs<H, C, L>([command], service) == [CommandRan(command, service)];
        var ran := RunNextTask();
        done := done + [command];
      }
      assert done == old(tasks);
    }

    /**
     The collector reclaims a command its submitter no longer holds: every weak
     reference to it in the command queue is cleared. Posted tasks hold their
     commands strongly and are not affected.
     */
    method Collect(command: C)
      requires Valid()
      modifies this
      ensures Valid()
      ensures commandQueue == ClearRefs(old(commandQueue), command)
      ensures Live(commandQueue) == Without(Live(old(commandQueue)), command)
      ensures service == old(service) && listeners == old(listeners)
      ensures tasks == old(tasks) && trace == old(trace)
    {
      LiveClearRefs(commandQueue, command);
      commandQueue := ClearRefs(commandQueue, command);
    }
  }
}
