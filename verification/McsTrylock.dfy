/** mcs_trylock does not initialise the node it is given: when the lock it takes can be free again. */
module McsTrylock {
  import opened McsModel
  import opened McsInvariant
  import opened McsTheorems

  ghost predicate OthersIdle(s: State, t: Tid) {
    t < |s.threads| && forall u :: 0 <= u < |s.threads| && u != t ==> s.threads[u].pc.Idle?
  }

  /** A thread alone at line 54: it leaves the lock free if no successor is in sight. */
  lemma ReleaseAlone(s: State, t: Tid)
    requires OthersIdle(s, t) && s.threads[t].pc.UnlockPeek? && s.tail == s.threads[t].node != NULL
    ensures var stale := NextOf(s, s.threads[t].node) != NULL;
      var s1 := Apply(s, Step(t));
      var s2 := Apply(s1, Step(t));
      && Enabled(s, Step(t)) && Enabled(s1, Step(t))
      && (!stale ==> AtRest(s2) && s2.tail == NULL && s2.nodes == s.nodes)
      && (stale ==> Enabled(s2, Step(t)) && AtRest(Apply(s2, Step(t))) && Apply(s2, Step(t)).tail == s.tail
                    && Apply(s2, Step(t)).nodes == SetWait(s, NextOf(s, s.threads[t].node), false).nodes
                    && s2.threads[t].pc.UnlockWake? && s2.threads[t].succ == NextOf(s, s.threads[t].node)
                    && (InUse(s2, s2.threads[t].succ) <==> s2.threads[t].succ == s.threads[t].node))
  {
  }

  /** A thread that runs alone takes a free lock with mcs_trylock and goes two steps into mcs_unlock. */
  function HalfRound(t: Tid): seq<Event> {
    [Step(t), CallUnlock(t)] + [Step(t), Step(t)]
  }

  /** And returns: it has not if it has found a successor. */
  function Round(t: Tid, stale: bool): seq<Event> {
    HalfRound(t) + if stale then [Step(t)] else []
  }

  lemma ExecTwo(s: State, e: Event, f: Event, es: seq<Event>)
    requires Enabled(s, e) && Enabled(Apply(s, e), f) && Possible(Apply(Apply(s, e), f), es)
    ensures Possible(s, [e, f] + es) && Exec(s, [e, f] + es) == Exec(Apply(Apply(s, e), f), es)
  {
    assert ([e, f] + es)[1..] == [f] + es;
    assert ([f] + es)[1..] == es;
  }

  lemma {:induction false} ExecMore(s: State, es: seq<Event>, e: Event)
    requires Possible(s, es) && Enabled(Exec(s, es), e)
    ensures Possible(s, es + [e]) && Exec(s, es + [e]) == Apply(Exec(s, es), e)
    decreases |es|
  {
    if es == [] {
      assert [] + [e] == [e] && [e][1..] == [];
    } else {
      assert (es + [e])[1..] == es[1..] + [e];
      ExecMore(Apply(s, es[0]), es[1..], e);
    }
  }

  /** The first half of the round: the lock is taken, and the call of mcs_unlock is at line 54. */
  lemma HalfRoundIs(s: State, t: Tid)
    requires Nodes(s) && s.tail == NULL && OthersIdle(s, t) && s.threads[t].pc.TrySwap?
    ensures var s2 := Apply(Apply(s, Step(t)), CallUnlock(t));
      && OthersIdle(s2, t) && s2.threads[t].pc.UnlockPeek? && s2.threads[t].node == s.threads[t].node
      && s2.tail == s.threads[t].node != NULL && s2.nodes == s.nodes
      && Possible(s, HalfRound(t)) && Exec(s, HalfRound(t)) == Apply(Apply(s2, Step(t)), Step(t))
  {
    var s1 := Apply(s, Step(t));
    assert Enabled(s1, CallUnlock(t));
    var s2 := Apply(s1, CallUnlock(t));
    assert OthersIdle(s2, t);
    ReleaseAlone(s2, t);
    ExecTwo(s2, Step(t), Step(t), []);
    assert [Step(t), Step(t)] + [] == [Step(t), Step(t)];
    ExecTwo(s, Step(t), CallUnlock(t), [Step(t), Step(t)]);
  }

  /** The round frees the lock, and lets go of the node, if and only if the node it brought had next NULL. With a
      stale next, as an uninitialised stack node or one used before may have, everyone is back from their
      calls, the lock is still taken and still refers to the node, and the last step of the release has written
      the wait word at the address the stale next held: no node of a running call, unless the node named
      itself. */
  lemma TrylockRound(s: State, t: Tid)
    requires Nodes(s) && s.tail == NULL && OthersIdle(s, t) && s.threads[t].pc.TrySwap?
    ensures var stale := NextOf(s, s.threads[t].node) != NULL;
      && Possible(s, Round(t, stale)) && AtRest(Exec(s, Round(t, stale)))
      && (Exec(s, Round(t, stale)).tail == NULL <==> !stale)
      && (Unreferenced(Exec(s, Round(t, stale)), s.threads[t].node) <==> !stale)
      && Exec(s, Round(t, stale)).nodes
         == (if stale then SetWait(s, NextOf(s, s.threads[t].node), false).nodes else s.nodes)
    ensures Possible(s, HalfRound(t)) && t < |Exec(s, HalfRound(t)).threads|
    ensures var next, late := NextOf(s, s.threads[t].node), Exec(s, HalfRound(t));
      next != NULL ==>
        && late.threads[t].pc.UnlockWake? && late.threads[t].succ == next
        && (InUse(late, next) <==> next == s.threads[t].node)
  {
    HalfRoundIs(s, t);
    ReleaseAlone(Apply(Apply(s, Step(t)), CallUnlock(t)), t);
    if NextOf(s, s.threads[t].node) == NULL {
      assert Round(t, false) == HalfRound(t);
    } else {
      ExecMore(s, HalfRound(t), Step(t));
    }
  }

  /** A run in which every trylock that takes the lock brings a node with next NULL. */
  predicate CleanRun(s: State, es: seq<Event>)
    decreases |es|
  {
    es == [] || (Enabled(s, es[0]) && TakesClean(s, es[0]) && CleanRun(Apply(s, es[0]), es[1..]))
  }

  lemma {:induction false} OrderedAlways(s: State, es: seq<Event>)
    requires Ordered(s) && CleanRun(s, es)
    ensures Possible(s, es) && Ordered(Exec(s, es))
    decreases |es|
  {
    if es == [] {
    } else {
      OrderedKept(s, es[0]);
      OrderedAlways(Apply(s, es[0]), es[1..]);
    }
  }

  /** Whenever all threads are back from their calls, the lock is free. */
  ghost predicate LeavesFree(s: State) {
    forall es :: CleanRun(s, es) && Possible(s, es) && AtRest(Exec(s, es)) ==> Exec(s, es).tail == NULL
  }

  lemma OrderedLeavesFree(s: State)
    requires Ordered(s)
    ensures LeavesFree(s)
  {
    forall es | CleanRun(s, es) && Possible(s, es) && AtRest(Exec(s, es)) ensures Exec(s, es).tail == NULL {
      OrderedAlways(s, es);
      TailNull(Exec(s, es));
    }
  }

  /** No trylock is under way, and es begins none. */
  lemma {:induction false} WithoutTriesIsClean(s: State, es: seq<Event>)
    requires Possible(s, es) && forall i :: 0 <= i < |es| ==> !es[i].CallTry?
    requires forall t :: 0 <= t < |s.threads| ==> !s.threads[t].pc.TrySwap?
    ensures CleanRun(s, es)
    decreases |es|
  {
    if es == [] {
    } else {
      WithoutTriesIsClean(Apply(s, es[0]), es[1..]);
    }
  }

  /** What a trylock that takes the lock must bring so that the lock can be free again (mcs_lock.h:52-88), exactly:
      with no other call running, every continuation in which later trylocks keep to it has the lock free
      whenever all threads are back if and only if the node's next is NULL. */
  lemma FreedExactly(s: State, t: Tid)
    requires Ordered(s) && s.tail == NULL && OthersIdle(s, t) && s.threads[t].pc.TrySwap?
    ensures LeavesFree(Apply(s, Step(t))) <==> NextOf(s, s.threads[t].node) == NULL
  {
    if NextOf(s, s.threads[t].node) == NULL {
      OrderedKept(s, Step(t));
      OrderedLeavesFree(Apply(s, Step(t)));
    } else {
      TrylockRound(s, t);
      WithoutTriesIsClean(Apply(s, Step(t)), Round(t, true)[1..]);
    }
  }
}
