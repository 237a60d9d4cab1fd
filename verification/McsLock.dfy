/** The MCS lock as an object whose words the threads update in place. */
module McsLock {
  import opened McsModel
  import opened McsInvariant
  import opened McsTheorems
  import opened McsExclusion

  class Lock {
    var tail: NodeId
    var nodes: map<NodeId, LockNode>
    var threads: seq<Thread>
    // History only: nothing above depends on what follows.
    ghost var queue: seq<Tid>
    ghost var served: seq<Tid>
    ghost var requests: seq<Tid>
    ghost var granted: seq<Tid>

    ghost function View(): State
      reads this
    {
      State(tail, nodes, threads, queue, served, requests, granted)
    }

    /** What holds in every run, whatever the trylocks bring. */
    ghost predicate Valid()
      reads this
    {
      OneToken(View())
    }

    /** mcs_lock_init, for n threads; the nodes hold anything. */
    constructor (n: nat, nodes: map<NodeId, LockNode>)
      ensures Valid() && Good(View()) && View() == Init(n, nodes)
    {
      tail, this.nodes := NULL, nodes;
      threads := seq(n, _ => RESTING);
      queue, served, requests, granted := [], [], [], [];
      new;
      InitGood(n, nodes);
    }

    /** fetch_and_store on lock->tail. */
    method FetchAndStore(node: NodeId) returns (found: NodeId)
      modifies this`tail
      ensures found == old(tail) && tail == node
    {
      found := tail;
      tail := node;
    }

    /** compare_and_store on lock->tail. */
    method CompareAndStore(cmp: NodeId, node: NodeId) returns (swapped: bool)
      modifies this`tail
      ensures swapped == (old(tail) == cmp) && tail == if swapped then node else old(tail)
    {
      swapped := tail == cmp;
      if swapped { tail := node; }
    }

    /** A store to one word of a node; GoodNodesExist says when there is a node at the address. */
    method StoreNext(node: NodeId, next: NodeId)
      modifies this`nodes
      ensures nodes == old(nodes)[node := LockNode(next, WaitOf(old(View()), node))]
    {
      nodes := nodes[node := LockNode(next, node in nodes && nodes[node].wait)];
    }

    method StoreWait(node: NodeId, wait: bool)
      modifies this`nodes
      ensures nodes == old(nodes)[node := LockNode(NextOf(old(View()), node), wait)]
    {
      nodes := nodes[node := LockNode(if node in nodes then nodes[node].next else NULL, wait)];
    }

    /** The next step of a thread inside mcs_lock or mcs_trylock. */
    method LockStep(t: Tid)
      requires t < |threads| && InLock(threads[t].pc) && threads[t].node in nodes
      modifies this
      ensures View() == Apply(old(View()), Step(t))
    {
      var th := threads[t];
      match th.pc {
        case LockNext =>
          StoreNext(th.node, NULL);
          threads := threads[t := th.(pc := LockWait)];
        case LockWait =>
          StoreWait(th.node, true);
          threads := threads[t := th.(pc := LockSwap)];
        case LockSwap =>
          var pre := FetchAndStore(th.node);
          threads := threads[t := th.(pre := pre, pc := if pre == NULL then Holding else LockLink)];
          queue, requests := queue + [t], requests + [t];
          if pre == NULL { granted := granted + [t]; }
        case LockLink =>
          StoreNext(th.pre, th.node);
          threads := threads[t := th.(pc := LockSpin)];
        case LockSpin =>
          if !nodes[th.node].wait {
            threads := threads[t := th.(pc := Holding)];
            granted := granted + [t];
          }
        case TrySwap =>
          var swapped := CompareAndStore(NULL, th.node);
          threads := threads[t := th.(pc := if swapped then Holding else Idle)];
          if swapped { queue, requests, granted := queue + [t], requests + [t], granted + [t]; }
      }
    }

    /** The next step of a thread inside mcs_unlock. */
    method UnlockStep(t: Tid)
      requires t < |threads| && InUnlock(threads[t].pc) && threads[t].node in nodes
      modifies this
      ensures View() == Apply(old(View()), Step(t))
    {
      var th := threads[t];
      match th.pc {
        case UnlockPeek =>
          threads := threads[t := th.(pc := if nodes[th.node].next == NULL then UnlockSwap else UnlockLoad)];
        case UnlockSwap =>
          var swapped := CompareAndStore(th.node, NULL);
          threads := threads[t := th.(pc := if swapped then Idle else UnlockSpin)];
          if swapped { Left(t); }
        case UnlockSpin =>
          if nodes[th.node].next != NULL { threads := threads[t := th.(pc := UnlockLoad)]; }
        case UnlockLoad =>
          threads := threads[t := th.(succ := nodes[th.node].next, pc := UnlockWake)];
        case UnlockWake =>
          StoreWait(th.succ, false);
          threads := threads[t := th.(pc := Idle)];
          Left(t);
      }
    }

    ghost method Left(t: Tid)
      modifies this`queue, this`served
      ensures queue == (if old(queue) == [] then [] else old(queue)[1..]) && served == old(served) + [t]
    {
      queue := if queue == [] then [] else queue[1..];
      served := served + [t];
    }

    /** One event: a step, the beginning of a call, or the reuse of a node no call has. */
    method Advance(e: Event)
      requires Nodes(View()) && Enabled(View(), e)
      modifies this
      ensures View() == Apply(old(View()), e)
    {
      match e {
        case CallLock(t, node) => threads := threads[t := threads[t].(pc := LockNext, node := node)];
        case CallTry(t, node) => threads := threads[t := threads[t].(pc := TrySwap, node := node)];
        case CallUnlock(t) => threads := threads[t := threads[t].(pc := UnlockPeek)];
        case Scribble(node, junk) => nodes := nodes[node := junk];
        case Step(t) =>
          if InLock(threads[t].pc) { LockStep(t); } else { UnlockStep(t); }
      }
    }

    /** mcs_is_locked */
    method IsLocked() returns (locked: bool)
      requires Good(View())
      ensures locked <==> exists t :: 0 <= t < |threads| && Queued(threads[t].pc)
    {
      TailNull(View());
      locked := tail != NULL;
    }

    /** Any schedule: the object does what the step machine does, so every theorem about runs is about it. */
    method Run(es: seq<Event>)
      requires Valid() && Possible(View(), es)
      modifies this
      ensures Valid() && View() == Exec(old(View()), es)
    {
      var i := 0;
      while i < |es|
        invariant 0 <= i <= |es| && Valid() && Possible(View(), es[i..])
        invariant Exec(View(), es[i..]) == Exec(old(View()), es)
      {
        assert es[i..][0] == es[i] && es[i..][1..] == es[i + 1..];
        TokenKept(View(), es[i]);
        Advance(es[i]);
        i := i + 1;
      }
    }
  }
}
