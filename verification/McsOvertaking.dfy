/** A trylock that takes the lock with a node that names another node lets a later request be served first. */
module McsOvertaking {
  import opened McsModel
  import opened McsInvariant
  import opened McsTheorems
  import opened McsTrylock
  import opened McsOrder

  ghost predicate Tryless(es: seq<Event>) {
    forall i :: 0 <= i < |es| ==> !es[i].CallTry?
  }

  /** es leads from s0 to s, and no trylock begins in it. */
  ghost predicate Reaches(s0: State, es: seq<Event>, s: State) {
    Possible(s0, es) && OrderlyRun(s0, es) && Tryless(es) && s == Exec(s0, es)
  }

  lemma {:induction false} OrderlyMore(s: State, es: seq<Event>, e: Event)
    requires Possible(s, es) && OrderlyRun(s, es) && Enabled(Exec(s, es), e) && TakesOrderly(Exec(s, es), e)
    ensures OrderlyRun(s, es + [e])
    decreases |es|
  {
    if es == [] {
      assert [] + [e] == [e] && [e][1..] == [];
    } else {
      assert (es + [e])[1..] == es[1..] + [e];
      OrderlyMore(Apply(s, es[0]), es[1..], e);
    }
  }

  lemma Next(s0: State, es: seq<Event>, s: State, e: Event) returns (es': seq<Event>, s': State)
    requires Reaches(s0, es, s) && Enabled(s, e) && TakesOrderly(s, e) && !e.CallTry?
    ensures Reaches(s0, es', s') && s' == Apply(s, e)
  {
    OrderlyMore(s0, es, e);
    ExecMore(s0, es, e);
    es', s' := es + [e], Apply(s, e);
  }

  /** Threads t and u are where they are, the others rest; the node m names x. */
  ghost predicate Scene(s: State, t: Tid, u: Tid, at: Thread, au: Thread, m: NodeId, x: NodeId) {
    && t != u && t < |s.threads| && u < |s.threads| && s.threads[t] == at && s.threads[u] == au
    && (forall w :: 0 <= w < |s.threads| && w != t && w != u ==> s.threads[w].pc.Idle?)
    && NextOf(s, m) == x && s.tail == m && x != NULL && m != NULL && x != m
  }

  /** Thread u gets ready with the node that the holder's node names. */
  lemma Ready(s0: State, t: Tid, u: Tid, at: Thread, au: Thread, x: NodeId) returns (es: seq<Event>, s: State)
    requires Scene(s0, t, u, at, au, at.node, x) && at.pc.Holding? && au.pc.Idle?
    ensures Reaches(s0, es, s) && Scene(s, t, u, at, au.(pc := LockSwap, node := x), at.node, x)
    ensures s.requests == s0.requests && s.granted == s0.granted
  {
    es, s := [], s0;
    es, s := Next(s0, es, s, Scribble(x, LockNode(NULL, false)));
    es, s := Next(s0, es, s, CallLock(u, x));
    es, s := Next(s0, es, s, Step(u));
    es, s := Next(s0, es, s, Step(u));
  }

  /** Thread t releases to u, which has not asked yet; the lock stays taken. */
  lemma Released(s0: State, es0: seq<Event>, s1: State, t: Tid, u: Tid, at: Thread, au: Thread, x: NodeId)
    returns (es: seq<Event>, s: State)
    requires Reaches(s0, es0, s1) && Scene(s1, t, u, at, au, at.node, x)
    requires at.pc.Holding? && au.pc.LockSwap? && au.node == x
    ensures Reaches(s0, es, s) && Scene(s, t, u, at.(pc := Idle, succ := x), au, at.node, x) && !WaitOf(s, x)
    ensures s.requests == s1.requests && s.granted == s1.granted
  {
    es, s := es0, s1;
    es, s := Next(s0, es, s, CallUnlock(t));
    es, s := Next(s0, es, s, Step(t));
    es, s := Next(s0, es, s, Step(t));
    es, s := Next(s0, es, s, Step(t));
  }

  /** Thread t asks again, and is the first in line. */
  lemma Asked(s0: State, es0: seq<Event>, s1: State, t: Tid, u: Tid, at: Thread, au: Thread, m: NodeId, x: NodeId)
    returns (es: seq<Event>, s: State)
    requires Reaches(s0, es0, s1) && Scene(s1, t, u, at, au, m, x) && !WaitOf(s1, x)
    requires at.pc.Idle? && au.pc.LockSwap? && au.node == x
    ensures Reaches(s0, es, s) && s.requests == s1.requests + [t] && s.granted == s1.granted
    ensures u < |s.threads| && s.threads[u] == au && s.tail != NULL && s.tail != x && !WaitOf(s, x)
  {
    var z := m + x;
    es, s := es0, s1;
    es, s := Next(s0, es, s, Scribble(z, LockNode(NULL, false)));
    es, s := Next(s0, es, s, CallLock(t, z));
    es, s := Next(s0, es, s, Step(t));
    es, s := Next(s0, es, s, Step(t));
    es, s := Next(s0, es, s, Step(t));
  }

  /** Thread u asks after it, and is served at once. */
  lemma Served(s0: State, es0: seq<Event>, s1: State, u: Tid) returns (es: seq<Event>, s: State)
    requires Reaches(s0, es0, s1) && u < |s1.threads| && s1.threads[u].pc.LockSwap?
    requires s1.tail != NULL && s1.tail != s1.threads[u].node && !WaitOf(s1, s1.threads[u].node)
    ensures Reaches(s0, es, s) && s.requests == s1.requests + [u] && s.granted == s1.granted + [u]
  {
    es, s := es0, s1;
    es, s := Next(s0, es, s, Step(u));
    es, s := Next(s0, es, s, Step(u));
    es, s := Next(s0, es, s, Step(u));
  }

  /** Whatever the nodes and the threads: with a thread at rest beside the holder, there is a run, with no
      trylock in it, in which the later of two requests is granted first. */
  lemma Overtaken(s: State, t: Tid, u: Tid) returns (es: seq<Event>)
    requires t < |s.threads| && s.threads[t].pc.Holding? && OthersIdle(s, t) && u < |s.threads| && u != t
    requires s.tail == s.threads[t].node != NULL && s.granted == s.requests
    requires NextOf(s, s.threads[t].node) != NULL && NextOf(s, s.threads[t].node) != s.threads[t].node
    ensures Possible(s, es) && OrderlyRun(s, es) && Tryless(es)
    ensures Exec(s, es).requests == s.requests + [t, u] && Exec(s, es).granted == s.granted + [u]
  {
    var at, au := s.threads[t], s.threads[u];
    var m, x := at.node, NextOf(s, at.node);
    var es1, s1 := Ready(s, t, u, at, au, x);
    var es2, s2 := Released(s, es1, s1, t, u, at, s1.threads[u], x);
    var es3, s3 := Asked(s, es2, s2, t, u, s2.threads[t], s2.threads[u], m, x);
    var s4;
    es, s4 := Served(s, es3, s3, u);
  }

  /** From s on, whatever happens, requests are served in order. */
  ghost predicate FifoFrom(s: State) {
    forall es :: Possible(s, es) && OrderlyRun(s, es) ==> Exec(s, es).granted <= Exec(s, es).requests
  }

  // ---- a thread of its own ------------------------------------------------------------------------------

  predicate Zeros(tids: seq<Tid>) {
    forall i :: 0 <= i < |tids| ==> tids[i] == 0
  }

  /** There is one thread, and it has acquired the lock as often as it asked, but for the request under way. */
  predicate Single(s: State) {
    && |s.threads| == 1 && Zeros(s.granted) && Zeros(s.requests)
    && |s.granted| + (if s.threads[0].pc.LockLink? || s.threads[0].pc.LockSpin? then 1 else 0) <= |s.requests|
  }

  lemma SingleLock(s: State)
    requires Single(s) && InLock(s.threads[0].pc)
    ensures Single(LockMove(s, 0))
  {
  }

  lemma SingleUnlock(s: State)
    requires Single(s) && InUnlock(s.threads[0].pc)
    ensures Single(UnlockMove(s, 0))
  {
  }

  lemma SingleKept(s: State, e: Event)
    requires Single(s) && Enabled(s, e)
    ensures Single(Apply(s, e))
  {
    if e.Step? {
      if InLock(s.threads[0].pc) { SingleLock(s); } else { SingleUnlock(s); }
    }
  }

  lemma {:induction false} SingleAlways(s: State, es: seq<Event>)
    requires Single(s) && Possible(s, es)
    ensures Single(Exec(s, es))
    decreases |es|
  {
    if es == [] {
    } else {
      SingleKept(s, es[0]);
      SingleAlways(Apply(s, es[0]), es[1..]);
    }
  }

  lemma {:induction false} ThreadsStay(s: State, es: seq<Event>)
    requires Possible(s, es)
    ensures |Exec(s, es).threads| == |s.threads|
    decreases |es|
  {
    if es == [] {
    } else {
      ThreadsStay(Apply(s, es[0]), es[1..]);
    }
  }

  lemma SingleIsFifo(s: State)
    requires Single(s)
    ensures FifoFrom(s)
  {
    forall es | Possible(s, es) && OrderlyRun(s, es) ensures Exec(s, es).granted <= Exec(s, es).requests {
      SingleAlways(s, es);
    }
  }

  // ---- the exact condition ------------------------------------------------------------------------------

  /** A state whose lock is free has its chain whole. */
  lemma FreeIsOrdered(s: State)
    requires InOrder(s) && s.tail == NULL
    ensures Ordered(s)
  {
    if !Ordered(s) {
      var t :| SelfHeld(s, t);
      SelfFacts(s, t);
    }
  }

  lemma OrderlyIsFifo(s: State)
    requires InOrder(s)
    ensures FifoFrom(s)
  {
    forall es | Possible(s, es) && OrderlyRun(s, es) ensures Exec(s, es).granted <= Exec(s, es).requests {
      InOrderAlways(s, es);
      ServedInOrder(Exec(s, es));
    }
  }

  lemma StaleIsNotFifo(s: State, t: Tid)
    requires Ordered(s) && s.tail == NULL && OthersIdle(s, t) && |s.threads| > 1 && s.threads[t].pc.TrySwap?
    requires !TakesOrderly(s, Step(t))
    ensures !FifoFrom(Apply(s, Step(t)))
  {
    var s' := Apply(s, Step(t));
    TailNull(s);
    var u: Tid := if t == 0 then 1 else 0;
    var es := Overtaken(s', t, u);
    assert Exec(s', es).granted[|s'.granted|] == u;
    assert Exec(s', es).requests[|s'.granted|] == t;
  }

  /** What a trylock that takes the lock must bring, exactly (mcs_lock.h:82-88; README:29): with no other call
      running, every continuation in which later trylocks bring it too serves the requests in order if and
      only if the node's next is NULL or the node itself, or there is no other thread. */
  lemma FifoExactly(n: nat, nodes: map<NodeId, LockNode>, es: seq<Event>, s: State, t: Tid)
    requires Possible(Init(n, nodes), es) && OrderlyRun(Init(n, nodes), es) && s == Exec(Init(n, nodes), es)
    requires OthersIdle(s, t) && s.threads[t].pc.TrySwap? && s.tail == NULL
    ensures FifoFrom(Apply(s, Step(t))) <==>
      NextOf(s, s.threads[t].node) == NULL || NextOf(s, s.threads[t].node) == s.threads[t].node || n == 1
  {
    var s0 := Init(n, nodes);
    InOrderAlways(s0, es);
    FreeIsOrdered(s);
    ThreadsStay(s0, es);
    if TakesOrderly(s, Step(t)) {
      InOrderKept(s, Step(t));
      OrderlyIsFifo(Apply(s, Step(t)));
    } else if n > 1 {
      StaleIsNotFifo(s, t);
    } else {
      SingleAlways(s0, es);
      SingleKept(s, Step(t));
      SingleIsFifo(Apply(s, Step(t)));
    }
  }
}
