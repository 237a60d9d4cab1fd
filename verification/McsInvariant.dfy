/** The chain of the MCS lock: what every reachable state satisfies, half-linked nodes included. */
module McsInvariant {
  import opened McsModel

  /** In the queue: from its swap of the tail to the end of its release. */
  predicate Queued(pc: Pc) {
    pc.LockLink? || pc.LockSpin? || pc.Holding? || InUnlock(pc)
  }

  /** Between acquire and release. */
  predicate Critical(pc: Pc) {
    pc.Holding? || InUnlock(pc)
  }

  ghost predicate Members(s: State) {
    && (forall i :: 0 <= i < |s.queue| ==> s.queue[i] < |s.threads| && Queued(s.threads[s.queue[i]].pc))
    && (forall i, j :: 0 <= i < j < |s.queue| ==> s.queue[i] != s.queue[j])
    && (forall t :: 0 <= t < |s.threads| && Queued(s.threads[t].pc) ==> t in s.queue)
  }

  /** Every call has a node of its own. */
  ghost predicate Nodes(s: State) {
    && (forall t :: 0 <= t < |s.threads| && !s.threads[t].pc.Idle? ==>
          s.threads[t].node != NULL && s.threads[t].node in s.nodes)
    && (forall t, u :: 0 <= t < u < |s.threads| && !s.threads[t].pc.Idle? && !s.threads[u].pc.Idle? ==>
          s.threads[t].node != s.threads[u].node)
  }

  /** A node on its way in has been initialised as far as its thread has come. */
  ghost predicate Arriving(s: State) {
    forall t :: 0 <= t < |s.threads| ==>
      && (s.threads[t].pc.LockWait? || s.threads[t].pc.LockSwap? ==> NextOf(s, s.threads[t].node) == NULL)
      && (s.threads[t].pc.LockSwap? ==> WaitOf(s, s.threads[t].node))
  }

  ghost function At(s: State, i: nat): Thread
    requires i < |s.queue| && s.queue[i] < |s.threads|
  {
    s.threads[s.queue[i]]
  }

  /** The next word of the node at position i: its successor's node once that has linked itself. */
  ghost predicate LinkOk(s: State, i: nat)
    requires Members(s) && i < |s.queue|
  {
    NextOf(s, At(s, i).node)
      == if i + 1 < |s.queue| && !At(s, i + 1).pc.LockLink? then At(s, i + 1).node else NULL
  }

  /** Whoever is behind the first waits, and knows its predecessor until it has linked itself. */
  ghost predicate WaiterOk(s: State, i: nat)
    requires Members(s) && 0 < i < |s.queue|
  {
    && (At(s, i).pc.LockLink? || At(s, i).pc.LockSpin?)
    && WaitOf(s, At(s, i).node)
    && (At(s, i).pc.LockLink? ==> At(s, i).pre == At(s, i - 1).node)
  }

  /** The first is the holder, is releasing, or has been woken. */
  ghost predicate FirstOk(s: State)
    requires Members(s) && |s.queue| > 0
  {
    var th := At(s, 0);
    && (Critical(th.pc) || (th.pc.LockSpin? && !WaitOf(s, th.node)))
    && (th.pc.UnlockSpin? ==> |s.queue| > 1)
    && (th.pc.UnlockLoad? || th.pc.UnlockWake? ==> |s.queue| > 1 && !At(s, 1).pc.LockLink?)
    && (th.pc.UnlockWake? ==> th.succ == At(s, 1).node)
  }

  ghost predicate Chain(s: State) {
    && Members(s) && Nodes(s) && Arriving(s)
    && s.tail == (if s.queue == [] then NULL else At(s, |s.queue| - 1).node)
    && (s.queue != [] ==> FirstOk(s))
    && (forall i {:trigger LinkOk(s, i)} :: 0 <= i < |s.queue| ==> LinkOk(s, i))
    && (forall i {:trigger WaiterOk(s, i)} :: 0 < i < |s.queue| ==> WaiterOk(s, i))
  }

  /** The node of a trylock under way has next NULL. */
  ghost predicate TriesPrepared(s: State) {
    forall t :: 0 <= t < |s.threads| && s.threads[t].pc.TrySwap? ==> NextOf(s, s.threads[t].node) == NULL
  }

  /** Requests are served in order: those that released, then the queue; the granted ones are those
      that released and the first of the queue once it has the lock. */
  ghost predicate Orders(s: State) {
    && s.requests == s.served + s.queue
    && s.granted == s.served +
         if s.queue != [] && s.queue[0] < |s.threads| && Critical(s.threads[s.queue[0]].pc) then s.queue[..1] else []
  }

  ghost predicate Ordered(s: State) {
    Chain(s) && Orders(s)
  }

  ghost predicate Good(s: State) {
    Ordered(s) && TriesPrepared(s)
  }

  // ---- steps of a thread outside the queue --------------------------------------------------------

  /** The parts of a state that a queue position depends on are the same. */
  ghost predicate SameQueue(s: State, s': State) {
    && s'.queue == s.queue && s'.tail == s.tail && |s'.threads| == |s.threads|
    && (forall i :: 0 <= i < |s.queue| && s.queue[i] < |s.threads| ==>
          && s'.threads[s.queue[i]] == s.threads[s.queue[i]]
          && NextOf(s', s.threads[s.queue[i]].node) == NextOf(s, s.threads[s.queue[i]].node)
          && WaitOf(s', s.threads[s.queue[i]].node) == WaitOf(s, s.threads[s.queue[i]].node))
  }

  lemma OutsideChain(s: State, s': State)
    requires Chain(s) && SameQueue(s, s') && Members(s') && Nodes(s') && Arriving(s')
    ensures Chain(s')
  {
    forall i | 0 <= i < |s'.queue| ensures LinkOk(s', i) { assert LinkOk(s, i); }
    forall i | 0 < i < |s'.queue| ensures WaiterOk(s', i) { assert WaiterOk(s, i); }
  }

  /** s' differs from s in one thread outside the queue, and in nodes of no other running call. */
  ghost predicate Outside(s: State, s': State, t: Tid) {
    && t < |s.threads| == |s'.threads|
    && s'.queue == s.queue && s'.tail == s.tail
    && s'.served == s.served && s'.requests == s.requests && s'.granted == s.granted
    && !Queued(s.threads[t].pc) && !Queued(s'.threads[t].pc)
    && (forall u :: 0 <= u < |s.threads| && u != t ==> s'.threads[u] == s.threads[u])
    && (forall u :: 0 <= u < |s.threads| && u != t && !s.threads[u].pc.Idle? ==>
          && NextOf(s', s.threads[u].node) == NextOf(s, s.threads[u].node)
          && WaitOf(s', s.threads[u].node) == WaitOf(s, s.threads[u].node))
  }

  lemma OutsideOrdered(s: State, s': State, t: Tid)
    requires Ordered(s) && Outside(s, s', t) && Nodes(s') && Arriving(s')
    ensures Ordered(s')
  {
    OutsideKeepsChain(s, s', t);
  }

  /** A call begins with a node that no other call has. */
  lemma CallNodes(s: State, t: Tid, node: NodeId, pc: Pc)
    requires Nodes(s) && Usable(s, t, node) && (pc.LockNext? || pc.TrySwap?)
    ensures Nodes(Goto(s, t, s.threads[t].(pc := pc, node := node)))
  {
  }

  /** A step outside the queue keeps the chain, whatever the caller brought. */
  lemma OutsideKeepsChain(s: State, s': State, t: Tid)
    requires Chain(s) && Outside(s, s', t) && Nodes(s') && Arriving(s')
    ensures Chain(s')
  {
    assert Members(s');
    OutsideChain(s, s');
  }

  lemma CallOrdered(s: State, t: Tid, node: NodeId, pc: Pc)
    requires Ordered(s) && Usable(s, t, node) && (pc.LockNext? || pc.TrySwap?)
    ensures Ordered(Goto(s, t, s.threads[t].(pc := pc, node := node)))
  {
    CallNodes(s, t, node, pc);
    OutsideOrdered(s, Goto(s, t, s.threads[t].(pc := pc, node := node)), t);
  }

  /** The nodes of running calls hold what they held. */
  ghost predicate SameNodes(s: State, s': State) {
    && s' == s.(nodes := s'.nodes) && s.nodes.Keys <= s'.nodes.Keys
    && (forall t :: 0 <= t < |s.threads| && !s.threads[t].pc.Idle? ==>
          && NextOf(s', s.threads[t].node) == NextOf(s, s.threads[t].node)
          && WaitOf(s', s.threads[t].node) == WaitOf(s, s.threads[t].node))
  }

  lemma SameNodesOrdered(s: State, s': State)
    requires Ordered(s) && SameNodes(s, s')
    ensures Ordered(s')
  {
    assert Members(s');
    assert Nodes(s');
    OutsideChain(s, s');
  }

  lemma ScribbleOrdered(s: State, node: NodeId, junk: LockNode)
    requires Ordered(s) && node != NULL && !InUse(s, node)
    ensures Ordered(s.(nodes := s.nodes[node := junk]))
  {
    var s' := s.(nodes := s.nodes[node := junk]);
    assert SameNodes(s, s');
    SameNodesOrdered(s, s');
  }

  lemma PrepareNextOrdered(s: State, t: Tid)
    requires Ordered(s) && t < |s.threads| && s.threads[t].pc.LockNext?
    ensures Ordered(LockMove(s, t))
  {
    assert Nodes(LockMove(s, t));
    OutsideOrdered(s, LockMove(s, t), t);
  }

  lemma PrepareWaitOrdered(s: State, t: Tid)
    requires Ordered(s) && t < |s.threads| && s.threads[t].pc.LockWait?
    ensures Ordered(LockMove(s, t))
  {
    assert Nodes(LockMove(s, t));
    OutsideOrdered(s, LockMove(s, t), t);
  }

  /** A trylock that finds the lock taken. */
  lemma TryFailsOrdered(s: State, t: Tid)
    requires Ordered(s) && t < |s.threads| && s.threads[t].pc.TrySwap? && s.tail != NULL
    ensures Ordered(LockMove(s, t))
  {
    OutsideOrdered(s, LockMove(s, t), t);
  }

  // ---- steps of the queue -----------------------------------------------------------------------------

  /** The position of a queued thread. */
  lemma PositionOf(s: State, t: Tid) returns (i: nat)
    requires Members(s) && t < |s.threads| && Queued(s.threads[t].pc)
    ensures i < |s.queue| && s.queue[i] == t
  {
    i :| 0 <= i < |s.queue| && s.queue[i] == t;
  }

  /** A thread that does not wait is the first. */
  lemma CriticalIsFirst(s: State, t: Tid)
    requires Chain(s) && t < |s.threads|
    requires Critical(s.threads[t].pc) || (s.threads[t].pc.LockSpin? && !WaitOf(s, s.threads[t].node))
    ensures |s.queue| > 0 && s.queue[0] == t
  {
    var i := PositionOf(s, t);
    assert 0 < i ==> WaiterOk(s, i);
  }

  /** mcs_is_locked answers whether any thread holds, releases or waits for the lock. */
  lemma TailNull(s: State)
    requires Chain(s)
    ensures s.tail == NULL <==> s.queue == []
    ensures s.tail == NULL <==> forall t :: 0 <= t < |s.threads| ==> !Queued(s.threads[t].pc)
  {
    assert s.queue != [] ==> Queued(At(s, 0).pc);
  }

  lemma JoinFirst(s: State, s': State, t: Tid)
    requires Members(s) && Members(s') && s.queue != [] && FirstOk(s) && s'.queue == s.queue + [t]
    requires forall u :: 0 <= u < |s.threads| && u != t ==> u < |s'.threads| && s'.threads[u] == s.threads[u]
    requires t !in s.queue && s'.nodes == s.nodes
    ensures FirstOk(s')
  {
  }

  lemma JoinMembers(s: State, s': State, t: Tid)
    requires Members(s) && t < |s.threads| && !Queued(s.threads[t].pc)
    requires s'.queue == s.queue + [t] && |s'.threads| == |s.threads| && Queued(s'.threads[t].pc)
    requires forall u :: 0 <= u < |s.threads| && u != t ==> s'.threads[u] == s.threads[u]
    ensures t !in s.queue && Members(s')
  {
    forall u | 0 <= u < |s'.threads| && Queued(s'.threads[u].pc) ensures u in s'.queue {
      if u == t { assert s'.queue[|s.queue|] == t; } else { assert u in s.queue; }
    }
  }

  lemma JoinNodes(s: State, t: Tid)
    requires Nodes(s) && Arriving(s) && t < |s.threads| && s.threads[t].pc.LockSwap?
    ensures Nodes(LockMove(s, t)) && Arriving(LockMove(s, t))
  {
  }

  /** t has joined s.queue, half-linked. */
  ghost predicate Joins(s: State, s': State, t: Tid) {
    && Members(s) && Members(s') && s.queue != [] && s'.queue == s.queue + [t] && s'.nodes == s.nodes
    && t < |s.threads| == |s'.threads| && t !in s.queue && s'.threads[t].pc.LockLink?
    && (forall u :: 0 <= u < |s.threads| && u != t ==> s'.threads[u] == s.threads[u])
  }

  lemma JoinsNext(s: State, s': State, t: Tid, i: nat)
    requires Joins(s, s', t) && i < |s'.queue|
    requires if i < |s.queue| then LinkOk(s, i) else NextOf(s, s'.threads[t].node) == NULL
    ensures LinkOk(s', i)
  {
  }

  lemma JoinsWait(s: State, s': State, t: Tid, i: nat)
    requires Joins(s, s', t) && 0 < i < |s'.queue|
    requires if i < |s.queue| then WaiterOk(s, i)
             else WaitOf(s, s'.threads[t].node) && s'.threads[t].pre == At(s, |s.queue| - 1).node
    ensures WaiterOk(s', i)
  {
  }

  /** Joining a queue that is not empty: the node is half-linked until line 44. */
  lemma JoinChain(s: State, t: Tid)
    requires Chain(s) && t < |s.threads| && s.threads[t].pc.LockSwap? && s.tail != NULL
    ensures Chain(LockMove(s, t))
  {
    var s' := LockMove(s, t);
    TailNull(s);
    JoinMembers(s, s', t);
    JoinNodes(s, t);
    JoinFirst(s, s', t);
    forall i | 0 <= i < |s'.queue| ensures LinkOk(s', i) {
      if i < |s.queue| { assert LinkOk(s, i); }
      JoinsNext(s, s', t, i);
    }
    forall i | 0 < i < |s'.queue| ensures WaiterOk(s', i) {
      if i < |s.queue| { assert WaiterOk(s, i); }
      JoinsWait(s, s', t, i);
    }
  }

  /** Taking a free lock, by mcs_lock or by mcs_trylock. */
  lemma TakeChain(s: State, t: Tid)
    requires Chain(s) && t < |s.threads| && s.tail == NULL
    requires s.threads[t].pc.LockSwap? || (s.threads[t].pc.TrySwap? && NextOf(s, s.threads[t].node) == NULL)
    ensures Chain(LockMove(s, t))
  {
    var s' := LockMove(s, t);
    TailNull(s);
    assert s'.queue == [t];
    assert Members(s');
    TakeOthers(s, t);
    assert NextOf(s', s.threads[t].node) == NULL;
    assert LinkOk(s', 0) && FirstOk(s');
  }

  lemma TakeOthers(s: State, t: Tid)
    requires Nodes(s) && Arriving(s) && t < |s.threads| && s.tail == NULL
    requires s.threads[t].pc.LockSwap? || s.threads[t].pc.TrySwap?
    ensures Nodes(LockMove(s, t)) && Arriving(LockMove(s, t))
  {
  }

  /** The queue stays; thread t of it moves on and writes the next word of the node in front of it. */
  ghost predicate Links(s: State, s': State, k: nat) {
    && Members(s) && Members(s') && Nodes(s) && 0 < k < |s.queue| && s'.queue == s.queue && |s'.threads| == |s.threads|
    && (forall u :: 0 <= u < |s.threads| && u != s.queue[k] ==> s'.threads[u] == s.threads[u])
    && At(s, k).pc.LockLink? && At(s', k) == At(s, k).(pc := LockSpin)
    && s'.nodes == SetNext(s, At(s, k - 1).node, At(s, k).node).nodes
  }

  lemma LinksNext(s: State, s': State, k: nat, i: nat)
    requires Links(s, s', k) && i < |s.queue| && LinkOk(s, i)
    ensures LinkOk(s', i)
  {
    assert s.queue[i] != s.queue[k - 1] ==> At(s, i).node != At(s, k - 1).node;
  }

  lemma LinksWait(s: State, s': State, k: nat, i: nat)
    requires Links(s, s', k) && 0 < i < |s.queue| && WaiterOk(s, i)
    ensures WaiterOk(s', i)
  {
  }

  lemma LinksFirst(s: State, s': State, k: nat)
    requires Links(s, s', k) && FirstOk(s)
    ensures FirstOk(s')
  {
  }

  lemma LinksOthers(s: State, t: Tid, k: nat)
    requires Members(s) && Nodes(s) && Arriving(s) && 0 < k < |s.queue| && s.queue[k] == t
    requires At(s, k).pc.LockLink? && At(s, k).pre == At(s, k - 1).node
    ensures Members(LockMove(s, t)) && Nodes(LockMove(s, t)) && Arriving(LockMove(s, t))
  {
  }

  /** Line 44: the successor becomes visible in its predecessor's node. */
  lemma LinkChain(s: State, t: Tid)
    requires Chain(s) && t < |s.threads| && s.threads[t].pc.LockLink?
    ensures Chain(LockMove(s, t))
  {
    var s' := LockMove(s, t);
    var k := PositionOf(s, t);
    assert k > 0;
    assert WaiterOk(s, k);
    LinksOthers(s, t, k);
    LinksFirst(s, s', k);
    forall i | 0 <= i < |s'.queue| ensures LinkOk(s', i) {
      assert LinkOk(s, i);
      LinksNext(s, s', k, i);
    }
    forall i | 0 < i < |s'.queue| ensures WaiterOk(s', i) {
      assert WaiterOk(s, i);
      LinksWait(s, s', k, i);
    }
  }

  // ---- steps of the first in the queue ------------------------------------------------------------------

  /** The first moves on inside the queue; nothing else changes. */
  ghost predicate FirstMoves(s: State, s': State, th': Thread) {
    && Members(s) && |s.queue| > 0
    && s'.tail == s.tail && s'.nodes == s.nodes && s'.queue == s.queue && s'.threads == s.threads[s.queue[0] := th']
    && Queued(th'.pc) && !th'.pc.LockLink? && th'.node == At(s, 0).node
  }

  lemma FirstMovesOthers(s: State, s': State, th': Thread)
    requires Members(s) && Nodes(s) && Arriving(s) && FirstMoves(s, s', th')
    ensures Members(s') && Nodes(s') && Arriving(s')
  {
  }

  lemma FirstMovesChain(s: State, s': State, th': Thread)
    requires Chain(s) && FirstMoves(s, s', th') && Members(s') && FirstOk(s')
    ensures Chain(s')
  {
    FirstMovesOthers(s, s', th');
    forall i | 0 <= i < |s'.queue| ensures LinkOk(s', i) { assert LinkOk(s, i); }
    forall i | 0 < i < |s'.queue| ensures WaiterOk(s', i) { assert WaiterOk(s, i); }
  }

  /** The lock is taken over, or its release begins. */
  lemma FirstHoldsChain(s: State, s': State, pc: Pc)
    requires Chain(s) && |s.queue| > 0 && (pc.Holding? || pc.UnlockPeek?)
    requires FirstMoves(s, s', At(s, 0).(pc := pc))
    ensures Chain(s')
  {
    FirstMovesOthers(s, s', At(s, 0).(pc := pc));
    FirstMovesChain(s, s', At(s, 0).(pc := pc));
  }

  lemma FirstReads(s: State, t: Tid)
    requires Chain(s) && |s.queue| > 0 && s.queue[0] == t && LinkOk(s, 0)
    requires InUnlock(s.threads[t].pc) && !s.threads[t].pc.UnlockWake?
    requires s.threads[t].pc.UnlockSwap? ==> s.tail != s.threads[t].node
    ensures var s' := UnlockMove(s, t); FirstMoves(s, s', s'.threads[t]) && (Members(s') ==> FirstOk(s'))
  {
  }

  /** The reads of mcs_unlock, and the swap of line 60 that finds a new requester. */
  lemma FirstReadsChain(s: State, t: Tid)
    requires Chain(s) && t < |s.threads| && InUnlock(s.threads[t].pc) && !s.threads[t].pc.UnlockWake?
    requires s.threads[t].pc.UnlockSwap? ==> s.tail != s.threads[t].node
    ensures Chain(UnlockMove(s, t))
  {
    CriticalIsFirst(s, t);
    assert LinkOk(s, 0);
    var s' := UnlockMove(s, t);
    FirstReads(s, t);
    FirstMovesOthers(s, s', s'.threads[t]);
    FirstMovesChain(s, s', s'.threads[t]);
  }

  lemma NodesApart(s: State)
    requires Members(s) && Nodes(s)
    ensures forall i, j :: 0 <= i < j < |s.queue| ==> At(s, i).node != At(s, j).node
  {
  }

  /** Line 60: the last one leaves. */
  lemma LastLeavesChain(s: State, t: Tid)
    requires Chain(s) && t < |s.threads| && s.threads[t].pc.UnlockSwap? && s.tail == s.threads[t].node
    ensures Chain(UnlockMove(s, t)) && s.queue == [t]
  {
    CriticalIsFirst(s, t);
    NodesApart(s);
    assert s.queue == [t];
  }

  /** Line 78: the successor of the first becomes the first, and is woken. */
  ghost predicate Wakes(s: State, s': State) {
    && Members(s) && Members(s') && Nodes(s) && |s.queue| > 1 && |s'.threads| == |s.threads| && s'.queue == s.queue[1..]
    && (forall u :: 0 <= u < |s.threads| && u != s.queue[0] ==> s'.threads[u] == s.threads[u])
    && s'.nodes == SetWait(s, At(s, 1).node, false).nodes
  }

  lemma WakesNext(s: State, s': State, i: nat)
    requires Wakes(s, s') && i < |s'.queue| && LinkOk(s, i + 1)
    ensures LinkOk(s', i)
  {
    WakesPosition(s, s', i);
    WakesKeepsNext(s, s', At(s, i + 1).node);
    if i + 1 < |s'.queue| { WakesPosition(s, s', i + 1); }
  }

  lemma WakesPosition(s: State, s': State, i: nat)
    requires Wakes(s, s') && i < |s'.queue|
    ensures At(s', i) == At(s, i + 1)
  {
  }

  lemma WakesKeepsNext(s: State, s': State, node: NodeId)
    requires Wakes(s, s')
    ensures NextOf(s', node) == NextOf(s, node)
  {
  }

  lemma WakesWait(s: State, s': State, i: nat)
    requires Wakes(s, s') && 0 < i < |s'.queue| && WaiterOk(s, i + 1)
    ensures WaiterOk(s', i)
  {
    assert At(s', i) == At(s, i + 1) && At(s', i - 1) == At(s, i);
    assert At(s, i + 1).node != At(s, 1).node;
  }

  lemma WakesMembers(s: State, s': State)
    requires Members(s) && |s.queue| > 1 && s'.queue == s.queue[1..] && |s'.threads| == |s.threads|
    requires forall u :: 0 <= u < |s.threads| && u != s.queue[0] ==> s'.threads[u] == s.threads[u]
    requires !Queued(s'.threads[s.queue[0]].pc)
    ensures Members(s')
  {
    forall u | 0 <= u < |s'.threads| && Queued(s'.threads[u].pc) ensures u in s'.queue {
      assert u in s.queue && u != s.queue[0];
    }
  }

  lemma WakesNodes(s: State, t: Tid)
    requires Members(s) && Nodes(s) && Arriving(s) && |s.queue| > 1 && s.queue[0] == t
    requires s.threads[t].pc.UnlockWake? && s.threads[t].succ == At(s, 1).node
    ensures Nodes(UnlockMove(s, t)) && Arriving(UnlockMove(s, t))
  {
    var s', u := UnlockMove(s, t), s.queue[1];
    assert s.threads[u].node == s.threads[t].succ;
  }

  lemma WakesFirst(s: State, s': State)
    requires Wakes(s, s') && WaiterOk(s, 1) && !At(s, 1).pc.LockLink?
    ensures FirstOk(s') && At(s', |s'.queue| - 1) == At(s, |s.queue| - 1)
  {
    assert At(s', 0) == At(s, 1);
  }

  lemma WakeChain(s: State, t: Tid)
    requires Chain(s) && t < |s.threads| && s.threads[t].pc.UnlockWake?
    ensures Chain(UnlockMove(s, t))
  {
    CriticalIsFirst(s, t);
    var s' := UnlockMove(s, t);
    WakesMembers(s, s');
    WakesNodes(s, t);
    assert WaiterOk(s, 1);
    WakesFirst(s, s');
    forall i | 0 <= i < |s'.queue| ensures LinkOk(s', i) {
      assert LinkOk(s, i + 1);
      WakesNext(s, s', i);
    }
    forall i | 0 < i < |s'.queue| ensures WaiterOk(s', i) {
      assert WaiterOk(s, i + 1);
      WakesWait(s, s', i);
    }
  }
}
