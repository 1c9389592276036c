/**
 The manager's pending-command queue: a FIFO of weak references to commands.
 The collector may clear a weak reference at any time once the submitter has
 dropped the command; a cleared reference yields no command when the queue is
 drained.
 */
module WeakQueue {
  import opened Collections

  /** A java.lang.ref.WeakReference to a command; `live` is false once the collector has cleared it. */
  datatype WeakRef<C> = WeakRef(referent: C, live: bool)

  /** The commands still reachable through the queue, front to back: what a full drain hands on. */
  function Live<C>(q: seq<WeakRef<C>>): (r: seq<C>)
    ensures |r| <= |q|
  {
    if q == [] then []
    else (if q[0].live then [q[0].referent] else []) + Live(q[1..])
  }

  /** Fresh, uncleared references to the given commands, in order: what runCommand enqueues. */
  function Enqueued<C>(cs: seq<C>): (q: seq<WeakRef<C>>)
    ensures |q| == |cs|
    ensures forall i :: 0 <= i < |cs| ==> q[i] == WeakRef(cs[i], true)
  {
    if cs == [] then [] else [WeakRef(cs[0], true)] + Enqueued(cs[1..])
  }

  /** What the collector does to the queue when it reclaims command c: every reference to c is cleared. */
  function ClearRefs<C(==)>(q: seq<WeakRef<C>>, c: C): (r: seq<WeakRef<C>>)
    ensures |r| == |q|
    ensures forall i :: 0 <= i < |q| ==>
      r[i].referent == q[i].referent && r[i].live == (q[i].live && q[i].referent != c)
  {
    if q == [] then []
    else [if q[0].referent == c then WeakRef(c, false) else q[0]] + ClearRefs(q[1..], c)
  }

  /** Draining one entry: a live reference yields its command, a cleared one yields nothing. */
  lemma {:induction false} LiveCons<C>(e: WeakRef<C>, q: seq<WeakRef<C>>)
    ensures Live([e] + q) == (if e.live then [e.referent] else []) + Live(q)
  {
  }

  /** Draining two queues back to back drains the first, then the second: the drain keeps FIFO order. */
  lemma {:induction false} LiveAppend<C>(a: seq<WeakRef<C>>, b: seq<WeakRef<C>>)
    ensures Live(a + b) == Live(a) + Live(b)
  {
    if a == [] {
      assert a + b == b;
    } else {
      assert (a + b)[0] == a[0] && (a + b)[1..] == a[1..] + b;
      LiveAppend(a[1..], b);
    }
  }

  /** Each live entry yields its command exactly once, so a command enqueued n times is posted n times. */
  lemma {:induction false} LiveMultiplicity<C>(q: seq<WeakRef<C>>, c: C)
    ensures multiset(Live(q))[c] == multiset(q)[WeakRef(c, true)]
  {
    if q != [] {
      assert q == [q[0]] + q[1..];
      LiveMultiplicity(q[1..], c);
    }
  }

  /** A command is handed on by the drain exactly when the queue holds a live reference to it. */
  lemma {:induction false} LiveMembership<C>(q: seq<WeakRef<C>>, c: C)
    ensures c in Live(q) <==> WeakRef(c, true) in q
  {
    LiveMultiplicity(q, c);
    assert c in multiset(Live(q)) <==> c in Live(q);
    assert WeakRef(c, true) in multiset(q) <==> WeakRef(c, true) in q;
  }

  /** A queue of fresh references drains to exactly the commands submitted, in submission order. */
  lemma {:induction false} LiveEnqueued<C>(cs: seq<C>)
    ensures Live(Enqueued(cs)) == cs
  {
    if cs != [] {
      assert Enqueued(cs) == [WeakRef(cs[0], true)] + Enqueued(cs[1..]);
      LiveCons(WeakRef(cs[0], true), Enqueued(cs[1..]));
      LiveEnqueued(cs[1..]);
    }
  }

  /** Collecting c removes every occurrence of c from what the drain hands on, and nothing else. */
  lemma {:induction false} LiveClearRefs<C>(q: seq<WeakRef<C>>, c: C)
    ensures Live(ClearRefs(q, c)) == Without(Live(q), c)
  {
    if q != [] {
      var rest := ClearRefs(q[1..], c);
      var tail := Live(q[1..]);
      LiveClearRefs(q[1..], c);
      assert Live(rest) == Without(tail, c);
      if q[0].live && q[0].referent != c {
        assert ClearRefs(q, c) == [q[0]] + rest;
        LiveCons(q[0], rest);
        assert Live(q) == [q[0].referent] + tail;
        WithoutCons(q[0].referent, tail, c);
      } else if q[0].live {
        assert ClearRefs(q, c) == [WeakRef(c, false)] + rest;
        LiveCons(WeakRef(c, false), rest);
        assert Live(q) == [c] + tail;
        WithoutCons(c, tail, c);
      } else {
        var e := if q[0].referent == c then WeakRef(c, false) else q[0];
        assert ClearRefs(q, c) == [e] + rest;
        LiveCons(e, rest);
        assert Live(q) == tail;
      }
    }
  }

  /** Removing the first live reference to c from the queue removes the first c from what the drain hands on. */
  lemma {:induction false} LiveRemoveFirst<C>(q: seq<WeakRef<C>>, c: C)
    ensures Live(RemoveFirst(q, WeakRef(c, true))) == RemoveFirst(Live(q), c)
  {
    if q != [] {
      var target := WeakRef(c, true);
      var tail := Live(q[1..]);
      if q[0] == target {
        assert RemoveFirst(q, target) == q[1..];
        assert Live(q) == [c] + tail;
        RemoveFirstCons(c, tail, c);
      } else {
        var rest := RemoveFirst(q[1..], target);
        assert RemoveFirst(q, target) == [q[0]] + rest;
        LiveCons(q[0], rest);
        LiveRemoveFirst(q[1..], c);
        assert Live(rest) == RemoveFirst(tail, c);
        if q[0].live {
          assert q[0].referent != c;
          assert Live(q) == [q[0].referent] + tail;
          RemoveFirstCons(q[0].referent, tail, c);
        } else {
          assert Live(q) == tail;
        }
      }
    }
  }
}
