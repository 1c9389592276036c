/**
 Clients of the manager: the behaviours its unit tests check and further
 end-to-end runs, each run on a fresh manager and stated as the sequence of
 calls the manager makes on listeners, the handler and commands.
 */
module ServiceConnectionManagerScenarios {
  import opened Collections
  import opened WeakQueue
  import opened ServiceConnectionManager

  /** A command submitted before any connection is queued and not run. */
  method QueueCommand<H, C(==), L(==)>(command: C) returns (pending: seq<WeakRef<C>>, trace: seq<Effect<H, C, L>>)
    ensures pending == [WeakRef(command, true)]
    ensures trace == []
  {
    var m := new Manager<H, C, L>();
    m.RunCommand(command);
    pending, trace := m.commandQueue, m.trace;
  }

  /** A new manager holds no handle. */
  method InitiallyUnbound<H, C(==), L(==)>() returns (s: Option<H>)
    ensures s == None
  {
    var m := new Manager<H, C, L>();
    s := m.GetService();
  }

  /** A command submitted while bound is posted and runs once with the connected binder. */
  method RunCommandImmediately<H, C(==), L(==)>(command: C, binder: H) returns (trace: seq<Effect<H, C, L>>)
    ensures trace == [Posted(command), CommandRan(command, Some(binder))]
  {
    var m := new Manager<H, C, L>();
    m.OnServiceConnected(binder);
    m.RunCommand(command);
    m.RunAllTasks();
    trace := m.trace;
  }

  /** A command queued before the connection runs before one submitted after it, both with the same binder. */
  method RunCommandsInOrder<H, C(==), L(==)>(first: C, second: C, binder: H) returns (trace: seq<Effect<H, C, L>>)
    ensures trace == [Posted(first), Posted(second), CommandRan(first, Some(binder)), CommandRan(second, Some(binder))]
  {
    var m := new Manager<H, C, L>();
    m.RunCommand(first);
    m.OnServiceConnected(binder);
    m.RunCommand(second);
    m.RunAllTasks();
    trace := m.trace;
  }

  /**
   The general queue-before-bind run: listeners registered, commands submitted
   while unbound, a connection, one more command, and the looper running every
   task. Listeners hear of the connection first and in registration order; the
   queued commands are then posted in submission order, the late command after
   them, and every command runs once, in that order, with the new handle.
   */
  method ConnectAfterQueueing<H, C(==), L(==)>(ls: seq<L>, before: seq<C>, h: H, after: C)
    returns (trace: seq<Effect<H, C, L>>)
    requires NoDuplicates(ls)
    ensures trace == ConnectedCalls(ls, h) + Posts(before) + [Posted(after)] + Runs(before + [after], Some(h))
  {
    var m := new Manager<H, C, L>();
    for i := 0 to |ls|
      invariant m.Valid() && m.service == None
      invariant m.listeners == ls[..i]
      invariant m.commandQueue == [] && m.tasks == [] && m.trace == []
    {
      assert ls[i] !in ls[..i];
      assert ls[..i + 1] == ls[..i] + [ls[i]];
      m.AddServiceConnectionListener(ls[i]);
    }
    assert ls[..|ls|] == ls;
    for i := 0 to |before|
      invariant m.Valid() && m.service == None && m.listeners == ls
      invariant m.commandQueue == Enqueued(before[..i])
      invariant m.tasks == [] && m.trace == []
    {
      assert before[..i + 1] == before[..i] + [before[i]];
      m.RunCommand(before[i]);
    }
    assert before[..|before|] == before;
    LiveEnqueued(before);
    m.OnServiceConnected(h);
    assert m.trace == ConnectedCalls(ls, h) + Posts(before);
    assert m.tasks == before;
    m.RunCommand(after);
    m.RunAllTasks();
    trace := m.trace;
  }

  /** A command cancelled while still queued never runs. */
  method CancelBeforeConnect<H, C(==), L(==)>(command: C, h: H) returns (trace: seq<Effect<H, C, L>>)
    ensures trace == []
  {
    var m := new Manager<H, C, L>();
    m.RunCommand(command);
    m.CancelCommand(command);
    m.OnServiceConnected(h);
    m.RunAllTasks();
    trace := m.trace;
  }

  /** With cancelCommand as written, a command cancelled while queued still runs after the connection. */
  method CancelAsWrittenStillRuns<H, C(==), L(==)>(command: C, h: H) returns (trace: seq<Effect<H, C, L>>)
    ensures trace == [Posted(command), CommandRan(command, Some(h))]
  {
    var m := new Manager<H, C, L>();
    m.RunCommand(command);
    m.CancelCommandAsWritten(command);
    m.OnServiceConnected(h);
    m.RunAllTasks();
    trace := m.trace;
  }

  /** A queued command whose weak reference the collector cleared is dropped silently. */
  method CollectedCommandDropped<H, C(==), L(==)>(command: C, h: H) returns (trace: seq<Effect<H, C, L>>)
    ensures trace == []
  {
    var m := new Manager<H, C, L>();
    m.RunCommand(command);
    m.Collect(command);
    m.OnServiceConnected(h);
    m.RunAllTasks();
    trace := m.trace;
  }

  /** Across a reconnection, each command runs with the handle of the binding it was dispatched in. */
  method Reconnect<H, C(==), L(==)>(c1: C, c2: C, h1: H, h2: H) returns (trace: seq<Effect<H, C, L>>)
    ensures trace == [Posted(c1), CommandRan(c1, Some(h1)), TasksRemoved, Posted(c2), CommandRan(c2, Some(h2))]
  {
    var m := new Manager<H, C, L>();
    m.OnServiceConnected(h1);
    m.RunCommand(c1);
    m.RunAllTasks();
    m.OnServiceDisconnected();
    m.RunCommand(c2);
    m.OnServiceConnected(h2);
    m.RunAllTasks();
    trace := m.trace;
  }

  /** A task posted but not yet run when the service disconnects never runs, not even after a reconnection. */
  method StaleTaskDiscarded<H, C(==), L(==)>(command: C, h1: H, h2: H) returns (trace: seq<Effect<H, C, L>>)
    ensures trace == [Posted(command), TasksRemoved]
  {
    var m := new Manager<H, C, L>();
    m.OnServiceConnected(h1);
    m.RunCommand(command);
    m.OnServiceDisconnected();
    m.OnServiceConnected(h2);
    m.RunAllTasks();
    trace := m.trace;
  }

  /** Listeners hear of a disconnection in registration order, after the handler's tasks are removed. */
  method DisconnectNotifiesInOrder<H, C(==), L(==)>(l1: L, l2: L, h: H) returns (trace: seq<Effect<H, C, L>>)
    requires l1 != l2
    ensures trace == [ListenerConnected(l1, h), ListenerConnected(l2, h), TasksRemoved,
                      ListenerDisconnected(l1), ListenerDisconnected(l2)]
  {
    var m := new Manager<H, C, L>();
    m.AddServiceConnectionListener(l1);
    m.AddServiceConnectionListener(l2);
    m.OnServiceConnected(h);
    m.OnServiceDisconnected();
    trace := m.trace;
  }

  /** A listener added while bound is not told about the current connection. */
  method LateListenerNotNotified<H, C(==), L(==)>(l: L, h: H) returns (trace: seq<Effect<H, C, L>>, s: Option<H>)
    ensures trace == []
    ensures s == Some(h)
  {
    var m := new Manager<H, C, L>();
    m.OnServiceConnected(h);
    m.AddServiceConnectionListener(l);
    s := m.GetService();
    trace := m.trace;
  }
}
