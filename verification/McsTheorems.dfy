/** What the MCS lock promises: first come first served, no lost wakeup, and nodes that may live on the
    caller's stack. */
module McsTheorems {
  import opened McsModel
  import opened McsInvariant

  // ---- the chain is kept by every step ------------------------------------------------------------------

  /** A trylock that takes the lock brings a node whose next is NULL. */
  predicate TakesClean(s: State, e: Event) {
    e.Step? && e.t < |s.threads| && s.threads[e.t].pc.TrySwap? && s.tail == NULL ==>
      NextOf(s, s.threads[e.t].node) == NULL
  }

  lemma LockChain(s: State, t: Tid)
    requires Ordered(s) && t < |s.threads| && InLock(s.threads[t].pc) && TakesClean(s, Step(t))
    ensures Chain(LockMove(s, t))
  {
    var pc := s.threads[t].pc;
    if pc.LockNext? {
      PrepareNextOrdered(s, t);
    } else if pc.LockWait? {
      PrepareWaitOrdered(s, t);
    } else if pc.LockLink? {
      LinkChain(s, t);
    } else if pc.LockSpin? {
      if !WaitOf(s, s.threads[t].node) {
        CriticalIsFirst(s, t);
        FirstHoldsChain(s, LockMove(s, t), Holding);
      }
    } else if s.tail == NULL {
      TakeChain(s, t);
    } else if pc.LockSwap? {
      JoinChain(s, t);
    } else {
      TryFailsOrdered(s, t);
    }
  }

  lemma UnlockChain(s: State, t: Tid)
    requires Chain(s) && t < |s.threads| && InUnlock(s.threads[t].pc)
    ensures Chain(UnlockMove(s, t))
  {
    if s.threads[t].pc.UnlockWake? {
      WakeChain(s, t);
    } else if s.threads[t].pc.UnlockSwap? && s.tail == s.threads[t].node {
      LastLeavesChain(s, t);
    } else {
      FirstReadsChain(s, t);
    }
  }

  /** The node a step writes to, NULL when there is none. */
  function Written(th: Thread): NodeId {
    if th.pc.LockNext? || th.pc.LockWait? then th.node
    else if th.pc.LockLink? then th.pre
    else if th.pc.UnlockWake? then th.succ
    else NULL
  }

  lemma StepFrame(s: State, t: Tid, node: NodeId)
    requires t < |s.threads| && node != Written(s.threads[t])
    ensures NextOf(Apply(s, Step(t)), node) == NextOf(s, node) && WaitOf(Apply(s, Step(t)), node) == WaitOf(s, node)
  {
  }

  /** It is the node of a running call, and not of a trylock. */
  lemma WrittenInUse(s: State, t: Tid) returns (u: Tid)
    requires Chain(s) && t < |s.threads| && Written(s.threads[t]) != NULL
    ensures u < |s.threads| && !s.threads[u].pc.Idle? && !s.threads[u].pc.TrySwap?
    ensures s.threads[u].node == Written(s.threads[t])
  {
    u := t;
    if s.threads[t].pc.LockLink? {
      var k := PositionOf(s, t);
      assert WaiterOk(s, k);
      u := s.queue[k - 1];
    } else if s.threads[t].pc.UnlockWake? {
      CriticalIsFirst(s, t);
      u := s.queue[1];
    }
  }

  lemma StepTries(s: State, t: Tid)
    requires Chain(s) && TriesPrepared(s) && t < |s.threads| && (InLock(s.threads[t].pc) || InUnlock(s.threads[t].pc))
    ensures TriesPrepared(Apply(s, Step(t)))
  {
    var s' := Apply(s, Step(t));
    var w := t;
    if Written(s.threads[t]) != NULL { w := WrittenInUse(s, t); }
    forall v | 0 <= v < |s'.threads| && s'.threads[v].pc.TrySwap? ensures NextOf(s', s'.threads[v].node) == NULL {
      assert s'.threads[v] == s.threads[v];
      StepFrame(s, t, s.threads[v].node);
    }
  }

  lemma TriesKept(s: State, e: Event)
    requires Chain(s) && TriesPrepared(s) && Enabled(s, e) && Prepared(s, e)
    ensures TriesPrepared(Apply(s, e))
  {
    if e.Step? { StepTries(s, e.t); }
  }

  lemma LockOrders(s: State, t: Tid)
    requires Chain(s) && Orders(s) && t < |s.threads| && InLock(s.threads[t].pc)
    ensures Orders(LockMove(s, t))
  {
    TailNull(s);
    if s.threads[t].pc.LockSpin? && !WaitOf(s, s.threads[t].node) { CriticalIsFirst(s, t); }
  }

  lemma LeaveOrders(s: State, s': State, t: Tid)
    requires Orders(s) && |s.queue| > 0 && s.queue[0] == t < |s.threads| && Critical(s.threads[t].pc)
    requires s'.queue == s.queue[1..] && s'.served == s.served + [t]
    requires s'.requests == s.requests && s'.granted == s.granted
    requires s'.queue != [] && s'.queue[0] < |s'.threads| ==> !Critical(s'.threads[s'.queue[0]].pc)
    ensures Orders(s')
  {
    assert s.queue == [t] + s'.queue;
  }

  lemma UnlockOrders(s: State, t: Tid)
    requires Chain(s) && Orders(s) && t < |s.threads| && InUnlock(s.threads[t].pc)
    ensures Orders(UnlockMove(s, t))
  {
    CriticalIsFirst(s, t);
    if s.threads[t].pc.UnlockSwap? && s.tail == s.threads[t].node {
      LastLeavesChain(s, t);
      LeaveOrders(s, UnlockMove(s, t), t);
    } else if s.threads[t].pc.UnlockWake? {
      assert WaiterOk(s, 1);
      LeaveOrders(s, UnlockMove(s, t), t);
    }
  }

  /** Every event keeps the chain and the order, unless a trylock takes the lock with a stale next. */
  lemma OrderedKept(s: State, e: Event)
    requires Ordered(s) && Enabled(s, e) && TakesClean(s, e)
    ensures Ordered(Apply(s, e))
  {
    match e
    case CallLock(t, node) => CallOrdered(s, t, node, LockNext);
    case CallTry(t, node) => CallOrdered(s, t, node, TrySwap);
    case CallUnlock(t) =>
      CriticalIsFirst(s, t);
      FirstHoldsChain(s, Apply(s, e), UnlockPeek);
    case Scribble(node, junk) => ScribbleOrdered(s, node, junk);
    case Step(t) =>
      if InLock(s.threads[t].pc) {
        LockChain(s, t);
        LockOrders(s, t);
      } else {
        UnlockChain(s, t);
        UnlockOrders(s, t);
      }
  }

  lemma GoodKept(s: State, e: Event)
    requires Good(s) && Enabled(s, e) && Prepared(s, e)
    ensures Good(Apply(s, e))
  {
    OrderedKept(s, e);
    TriesKept(s, e);
  }

  lemma InitGood(n: nat, nodes: map<NodeId, LockNode>)
    ensures Good(Init(n, nodes))
  {
  }

  lemma {:induction false} GoodAlways(s: State, es: seq<Event>)
    requires Good(s) && Admissible(s, es)
    ensures Possible(s, es) && Good(Exec(s, es))
    decreases |es|
  {
    if es == [] {
    } else {
      GoodKept(s, es[0]);
      GoodAlways(Apply(s, es[0]), es[1..]);
    }
  }

  ghost predicate Reachable(s: State, n: nat, nodes: map<NodeId, LockNode>, es: seq<Event>) {
    Admissible(Init(n, nodes), es) && Possible(Init(n, nodes), es) && s == Exec(Init(n, nodes), es)
  }

  lemma ReachableGood(s: State, n: nat, nodes: map<NodeId, LockNode>, es: seq<Event>)
    requires Reachable(s, n, nodes, es)
    ensures Good(s)
  {
    InitGood(n, nodes);
    GoodAlways(Init(n, nodes), es);
  }

  // ---- the promises ---------------------------------------------------------------------------------------

  /** FIFO (mcs_lock.h:37-48, 60-78, 84): the lock is granted in the order in which threads swapped
      themselves in, so a waiter is passed only by those ahead of it; and mcs_is_locked is exact. */
  lemma Fifo(s: State, n: nat, nodes: map<NodeId, LockNode>, es: seq<Event>)
    requires Reachable(s, n, nodes, es)
    ensures s.granted <= s.requests
    ensures s.tail == NULL <==> forall t :: 0 <= t < |s.threads| ==> !Queued(s.threads[t].pc)
    ensures (forall t :: 0 <= t < |s.threads| ==> !Queued(s.threads[t].pc)) ==> s.granted == s.requests
  {
    ReachableGood(s, n, nodes, es);
    TailNull(s);
  }

  /** No shared word and no live local of a thread refers to the node. */
  ghost predicate Unreferenced(s: State, node: NodeId) {
    && s.tail != node
    && forall t :: 0 <= t < |s.threads| && !s.threads[t].pc.Idle? ==>
         && s.threads[t].node != node
         && (!s.threads[t].pc.LockNext? ==> NextOf(s, s.threads[t].node) != node)
         && (s.threads[t].pc.LockLink? ==> s.threads[t].pre != node)
         && (s.threads[t].pc.UnlockWake? ==> s.threads[t].succ != node)
  }

  lemma FreeIsUnreferenced(s: State, node: NodeId)
    requires Good(s) && node != NULL && !InUse(s, node)
    ensures Unreferenced(s, node)
  {
    TailNull(s);
    forall t | 0 <= t < |s.threads| && !s.threads[t].pc.Idle?
      ensures !s.threads[t].pc.LockNext? ==> NextOf(s, s.threads[t].node) != node
      ensures s.threads[t].pc.LockLink? ==> s.threads[t].pre != node
      ensures s.threads[t].pc.UnlockWake? ==> s.threads[t].succ != node
    {
      if Queued(s.threads[t].pc) {
        var i := PositionOf(s, t);
        assert LinkOk(s, i);
        assert 0 < i ==> WaiterOk(s, i);
      }
    }
  }

  /** Stack nodes (mcs_lock.h:26-28, 52-80): when mcs_unlock or a failed mcs_trylock returns, nothing refers
      to its node; and as long as no call has the node, no step of any thread writes it or depends on
      what it holds: the step and an overwriting of the node by its owner may change places. */
  lemma NodeIsFreeAfter(s: State, n: nat, nodes: map<NodeId, LockNode>, es: seq<Event>, t: Tid, node: NodeId,
                        junk: LockNode)
    requires Reachable(s, n, nodes, es) && Enabled(s, Step(t))
    ensures Apply(s, Step(t)).threads[t].pc.Idle? ==> Unreferenced(Apply(s, Step(t)), s.threads[t].node)
    ensures node != NULL && !InUse(s, node) ==>
      NextOf(Apply(s, Step(t)), node) == NextOf(s, node) && WaitOf(Apply(s, Step(t)), node) == WaitOf(s, node)
    ensures node != NULL && !InUse(s, node) ==>
      Apply(Apply(s, Scribble(node, junk)), Step(t)) == Apply(Apply(s, Step(t)), Scribble(node, junk))
  {
    ReachableGood(s, n, nodes, es);
    if node != NULL && !InUse(s, node) {
      StepWritesInUse(s, t, node);
      FreeNodeIsIgnored(s, t, node, junk);
    }
    if Apply(s, Step(t)).threads[t].pc.Idle? {
      GoodKept(s, Step(t));
      ReturnFrees(s, t);
      FreeIsUnreferenced(Apply(s, Step(t)), s.threads[t].node);
    }
  }

  /** A step neither reads nor writes a node that its thread has in none of its locals. */
  lemma LockIgnores(s: State, s1: State, t: Tid, node: NodeId, junk: LockNode)
    requires t < |s.threads| && InLock(s.threads[t].pc) && s.threads[t].node != node && Written(s.threads[t]) != node
    requires s1 == s.(nodes := s.nodes[node := junk])
    ensures LockMove(s1, t) == LockMove(s, t).(nodes := LockMove(s, t).nodes[node := junk])
  {
    assert LockMove(s1, t).nodes == LockMove(s, t).nodes[node := junk];
  }

  lemma UnlockIgnores(s: State, s1: State, t: Tid, node: NodeId, junk: LockNode)
    requires t < |s.threads| && InUnlock(s.threads[t].pc) && s.threads[t].node != node && Written(s.threads[t]) != node
    requires s1 == s.(nodes := s.nodes[node := junk])
    ensures UnlockMove(s1, t) == UnlockMove(s, t).(nodes := UnlockMove(s, t).nodes[node := junk])
  {
    assert UnlockMove(s1, t).nodes == UnlockMove(s, t).nodes[node := junk];
  }

  lemma FreeNodeIsIgnored(s: State, t: Tid, node: NodeId, junk: LockNode)
    requires Good(s) && Enabled(s, Step(t)) && node != NULL && !InUse(s, node)
    ensures Apply(Apply(s, Scribble(node, junk)), Step(t)) == Apply(Apply(s, Step(t)), Scribble(node, junk))
    ensures NextOf(Apply(s, Scribble(node, junk)), node) == junk.next
    ensures WaitOf(Apply(s, Scribble(node, junk)), node) == junk.wait
  {
    FreeIsUnreferenced(s, node);
    if InLock(s.threads[t].pc) {
      LockIgnores(s, Apply(s, Scribble(node, junk)), t, node, junk);
    } else {
      UnlockIgnores(s, Apply(s, Scribble(node, junk)), t, node, junk);
    }
  }

  lemma StepWritesInUse(s: State, t: Tid, node: NodeId)
    requires Chain(s) && t < |s.threads| && node != NULL && !InUse(s, node)
    ensures NextOf(Apply(s, Step(t)), node) == NextOf(s, node) && WaitOf(Apply(s, Step(t)), node) == WaitOf(s, node)
  {
    if Written(s.threads[t]) != NULL { var u := WrittenInUse(s, t); }
    StepFrame(s, t, node);
  }

  /** The node of a call that returns is free: no other call has it. */
  lemma ReturnFrees(s: State, t: Tid)
    requires Nodes(s) && Enabled(s, Step(t)) && Apply(s, Step(t)).threads[t].pc.Idle?
    ensures s.threads[t].node != NULL && !InUse(Apply(s, Step(t)), s.threads[t].node)
  {
    var s' := Apply(s, Step(t));
    assert forall u :: 0 <= u < |s.threads| && u != t ==> s'.threads[u] == s.threads[u];
  }

  /** The addresses a thread's next step reads or writes are nodes. */
  ghost predicate NodesExist(s: State, t: Tid)
    requires t < |s.threads|
  {
    && s.threads[t].node != NULL && s.threads[t].node in s.nodes
    && (s.threads[t].pc.LockLink? ==> s.threads[t].pre != NULL && s.threads[t].pre in s.nodes)
    && (s.threads[t].pc.UnlockWake? ==> s.threads[t].succ != NULL && s.threads[t].succ in s.nodes)
  }

  /** With prepared trylocks no step follows NULL or a pointer to nowhere, lines 44 and 78 included. */
  lemma GoodNodesExist(s: State, t: Tid)
    requires Good(s) && t < |s.threads| && !s.threads[t].pc.Idle?
    ensures NodesExist(s, t)
  {
    if s.threads[t].pc.LockLink? {
      var k := PositionOf(s, t);
      assert WaiterOk(s, k);
      assert At(s, k - 1).node in s.nodes;
    } else if s.threads[t].pc.UnlockWake? {
      CriticalIsFirst(s, t);
      assert At(s, 1).node in s.nodes;
    }
  }

  // ---- progress -------------------------------------------------------------------------------------------

  /** The thread has a step to take that is not another round of a spin loop; a holder releases. */
  predicate Productive(s: State, t: Tid) {
    && t < |s.threads| && !s.threads[t].pc.Idle?
    && (s.threads[t].pc.LockSpin? ==> !WaitOf(s, s.threads[t].node))
    && (s.threads[t].pc.UnlockSpin? ==> NextOf(s, s.threads[t].node) != NULL)
  }

  function NextEvent(s: State, t: Tid): Event
    requires t < |s.threads|
  {
    if s.threads[t].pc.Holding? then CallUnlock(t) else Step(t)
  }

  /** No wakeup is lost (mcs_lock.h:44-48, 54-79): while any call is running, some thread can move. */
  lemma SomeoneCanMove(s: State, t: Tid) returns (u: Tid)
    requires Good(s) && t < |s.threads| && !s.threads[t].pc.Idle?
    ensures Productive(s, u)
  {
    TailNull(s);
    if s.queue == [] {
      u := t;
      assert !Queued(s.threads[t].pc);
    } else {
      u := s.queue[0];
      assert LinkOk(s, 0);
      if s.threads[u].pc.UnlockSpin? && NextOf(s, s.threads[u].node) == NULL {
        u := s.queue[1];
        assert At(s, 1).node != NULL;
      }
    }
  }

  /** The steps a thread still has to take to release, without the rounds of its spin loops. */
  function Distance(pc: Pc): nat {
    match pc
    case Idle => 0
    case LockNext => 12 case LockWait => 11 case LockSwap => 10 case LockLink => 9 case LockSpin => 8
    case TrySwap => 8
    case Holding => 7
    case UnlockPeek => 6 case UnlockSwap => 5 case UnlockSpin => 4 case UnlockLoad => 3 case UnlockWake => 2
  }

  function Measure(threads: seq<Thread>): nat {
    if threads == [] then 0 else Distance(threads[0].pc) + Measure(threads[1..])
  }

  lemma {:induction false} MeasureUpdate(threads: seq<Thread>, t: Tid, th: Thread)
    requires t < |threads|
    ensures Measure(threads[t := th]) == Measure(threads) - Distance(threads[t].pc) + Distance(th.pc)
  {
    if t == 0 {
      assert threads[0 := th][1..] == threads[1..];
    } else {
      assert threads[t := th][1..] == threads[1..][t - 1 := th];
      MeasureUpdate(threads[1..], t - 1, th);
    }
  }

  lemma LockCloser(s: State, t: Tid)
    requires Productive(s, t) && InLock(s.threads[t].pc)
    ensures LockMove(s, t).threads == s.threads[t := LockMove(s, t).threads[t]]
    ensures Distance(LockMove(s, t).threads[t].pc) < Distance(s.threads[t].pc)
  {
  }

  lemma UnlockCloser(s: State, t: Tid)
    requires Productive(s, t) && InUnlock(s.threads[t].pc)
    ensures UnlockMove(s, t).threads == s.threads[t := UnlockMove(s, t).threads[t]]
    ensures Distance(UnlockMove(s, t).threads[t].pc) < Distance(s.threads[t].pc)
  {
  }

  /** Every productive step brings the lock closer to rest. */
  lemma ProductiveDecreases(s: State, t: Tid)
    requires Productive(s, t)
    ensures Enabled(s, NextEvent(s, t)) && Prepared(s, NextEvent(s, t))
    ensures Measure(Apply(s, NextEvent(s, t)).threads) < Measure(s.threads)
    ensures |Apply(s, NextEvent(s, t)).threads| == |s.threads|
  {
    if InLock(s.threads[t].pc) {
      LockCloser(s, t);
    } else if InUnlock(s.threads[t].pc) {
      UnlockCloser(s, t);
    }
    MeasureUpdate(s.threads, t, Apply(s, NextEvent(s, t)).threads[t]);
  }

  /** A schedule of productive steps only. */
  predicate AllProductive(s: State, ts: seq<Tid>)
    decreases |ts|
  {
    ts == [] || (Productive(s, ts[0]) && AllProductive(Apply(s, NextEvent(s, ts[0])), ts[1..]))
  }

  function RunProductive(s: State, ts: seq<Tid>): State
    requires AllProductive(s, ts)
    decreases |ts|
  {
    if ts == [] then s else RunProductive(Apply(s, NextEvent(s, ts[0])), ts[1..])
  }

  ghost predicate AtRest(s: State) {
    forall t :: 0 <= t < |s.threads| ==> s.threads[t].pc.Idle?
  }

  lemma RequestsGrow(s: State, t: Tid)
    requires t < |s.threads|
    ensures s.requests <= Apply(s, NextEvent(s, t)).requests
  {
  }

  lemma {:induction false} ProductiveRun(s: State, ts: seq<Tid>)
    requires Good(s) && AllProductive(s, ts)
    ensures var s' := RunProductive(s, ts);
      Good(s') && |ts| + Measure(s'.threads) <= Measure(s.threads) && s.requests <= s'.requests
    decreases |ts|
  {
    if ts == [] {
    } else {
      var s1 := Apply(s, NextEvent(s, ts[0]));
      ProductiveDecreases(s, ts[0]);
      GoodKept(s, NextEvent(s, ts[0]));
      RequestsGrow(s, ts[0]);
      ProductiveRun(s1, ts[1..]);
    }
  }

  /** Progress: with no new requests every schedule ends, however the threads are interleaved: it has at
      most Measure productive steps, and where none is left, every thread that had asked for the
      lock has acquired it and released it. */
  lemma Progress(s: State, n: nat, nodes: map<NodeId, LockNode>, es: seq<Event>, ts: seq<Tid>)
    requires Reachable(s, n, nodes, es) && AllProductive(s, ts)
    ensures |ts| <= Measure(s.threads)
    ensures var s' := RunProductive(s, ts);
      (forall t :: !Productive(s', t)) <==> AtRest(s')
    ensures var s' := RunProductive(s, ts);
      AtRest(s') ==> s'.granted == s'.served == s'.requests && s.requests <= s'.requests && s'.tail == NULL
  {
    ReachableGood(s, n, nodes, es);
    ProductiveRun(s, ts);
    RestIsServed(RunProductive(s, ts));
  }

  lemma RestIsServed(s: State)
    requires Good(s)
    ensures (forall t :: !Productive(s, t)) <==> AtRest(s)
    ensures AtRest(s) ==> s.granted == s.served == s.requests && s.tail == NULL
  {
    if !AtRest(s) {
      var t :| 0 <= t < |s.threads| && !s.threads[t].pc.Idle?;
      var u := SomeoneCanMove(s, t);
    } else {
      TailNull(s);
    }
  }

  /** The rounds of a spin loop that ProductiveRun leaves out change nothing. */
  lemma SpinsChangeNothing(s: State, t: Tid)
    requires Good(s) && Enabled(s, Step(t)) && !Productive(s, t)
    ensures Apply(s, Step(t)) == s
  {
  }
}
