/** Mutual exclusion of the MCS lock, whatever node a trylock brings: a token is in the free lock, with the
    holder, or in the wait flag of the thread woken last, and there is never more than one. */
module McsExclusion {
  import opened McsModel
  import opened McsInvariant

  /** The thread will find its own flag down. */
  predicate Woken(s: State, t: Tid)
    requires t < |s.threads|
  {
    var th := s.threads[t];
    (th.pc.LockSwap? || th.pc.LockLink? || th.pc.LockSpin?) && !WaitOf(s, th.node)
  }

  predicate HasToken(s: State, t: Tid) {
    t < |s.threads| && (Critical(s.threads[t].pc) || Woken(s, t))
  }

  ghost predicate OneToken(s: State) {
    && Nodes(s)
    && (forall t, u :: HasToken(s, t) && HasToken(s, u) ==> t == u)
    && (s.tail == NULL ==> forall t :: !HasToken(s, t))
  }

  /** s' has the nodes of s, and each call of s' has the node it has in s. */
  ghost predicate KeepsNodes(s: State, s': State) {
    && |s'.threads| == |s.threads| && s.nodes.Keys <= s'.nodes.Keys
    && (forall t :: 0 <= t < |s.threads| && !s'.threads[t].pc.Idle? ==>
          !s.threads[t].pc.Idle? && s'.threads[t].node == s.threads[t].node)
  }

  lemma NodesSurvive(s: State, s': State)
    requires Nodes(s) && KeepsNodes(s, s')
    ensures Nodes(s')
  {
  }

  lemma StepKeepsNodes(s: State, t: Tid)
    requires Enabled(s, Step(t))
    ensures KeepsNodes(s, Apply(s, Step(t)))
  {
  }

  lemma NodesKept(s: State, e: Event)
    requires Nodes(s) && Enabled(s, e)
    ensures Nodes(Apply(s, e))
  {
    if e.Step? {
      StepKeepsNodes(s, e.t);
      NodesSurvive(s, Apply(s, e));
    } else if e.CallUnlock? || e.Scribble? {
      NodesSurvive(s, Apply(s, e));
    } else if e.CallLock? {
      CallNodes(s, e.t, e.node, LockNext);
    } else {
      CallNodes(s, e.t, e.node, TrySwap);
    }
  }

  /** A step of a thread gives no other a token, but for the wake of line 78. */
  lemma OthersTokens(s: State, t: Tid, u: Tid)
    requires Nodes(s) && t < |s.threads| && t != u && HasToken(Apply(s, Step(t)), u)
    ensures HasToken(s, u) || (s.threads[t].pc.UnlockWake? && s.threads[u].node == s.threads[t].succ)
  {
    assert Apply(s, Step(t)).threads[u] == s.threads[u];
  }

  /** A thread has a token after its step only if it had one, or took the lock when it was free. */
  lemma OwnToken(s: State, t: Tid)
    requires Nodes(s) && OneToken(s) && t < |s.threads| && (InLock(s.threads[t].pc) || InUnlock(s.threads[t].pc))
    ensures var s' := Apply(s, Step(t));
      && (HasToken(s', t) ==> HasToken(s, t) || s.tail == NULL)
      && (s'.tail == NULL ==> (s.tail == NULL || HasToken(s, t)) && !HasToken(s', t))
  {
    assert HasToken(s, t) ==> s.tail != NULL;
  }

  lemma StepToken(s: State, t: Tid)
    requires OneToken(s) && Enabled(s, Step(t))
    ensures OneToken(Apply(s, Step(t)))
  {
    var s' := Apply(s, Step(t));
    NodesKept(s, Step(t));
    OwnToken(s, t);
    forall u: Tid | u != t && HasToken(s', u)
      ensures HasToken(s, u) || (s.threads[t].pc.UnlockWake? && s.threads[u].node == s.threads[t].succ)
    {
      OthersTokens(s, t, u);
    }
    assert s.threads[t].pc.UnlockWake? ==> HasToken(s, t) && !HasToken(s', t) && s'.tail == s.tail;
  }

  lemma TokenKept(s: State, e: Event)
    requires OneToken(s) && Enabled(s, e)
    ensures OneToken(Apply(s, e))
  {
    if e.Step? {
      StepToken(s, e.t);
    } else {
      NodesKept(s, e);
      forall u | HasToken(Apply(s, e), u) ensures HasToken(s, u) { }
    }
  }

  lemma {:induction false} TokenAlways(s: State, es: seq<Event>)
    requires OneToken(s) && Possible(s, es)
    ensures OneToken(Exec(s, es))
    decreases |es|
  {
    if es == [] {
    } else {
      TokenKept(s, es[0]);
      TokenAlways(Apply(s, es[0]), es[1..]);
    }
  }

  /** Mutual exclusion (mcs_lock.h:30-88): whatever mix of lock, unlock and trylock, however nodes are reused
      and whatever they hold when a call gets them, at most one thread is between acquire and release. */
  lemma MutualExclusion(n: nat, nodes: map<NodeId, LockNode>, es: seq<Event>, t: Tid, u: Tid)
    requires Possible(Init(n, nodes), es)
    ensures var s := Exec(Init(n, nodes), es);
      t < |s.threads| && u < |s.threads| && Critical(s.threads[t].pc) && Critical(s.threads[u].pc) ==> t == u
  {
    TokenAlways(Init(n, nodes), es);
    var s := Exec(Init(n, nodes), es);
    assert forall v: Tid :: v < |s.threads| && Critical(s.threads[v].pc) ==> HasToken(s, v);
  }
}
