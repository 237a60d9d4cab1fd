/** First come, first served, in every run in which no trylock takes the lock with a node that names another:
    a node that names itself is allowed, and may lose the wakeup but not the order. */
module McsOrder {
  import opened McsModel
  import opened McsInvariant
  import opened McsExclusion
  import opened McsTheorems

  /** A trylock that takes the lock brings a node whose next is NULL or the node itself. */
  predicate TakesOrderly(s: State, e: Event) {
    e.Step? && e.t < |s.threads| && s.threads[e.t].pc.TrySwap? && s.tail == NULL ==>
      NextOf(s, s.threads[e.t].node) == NULL || NextOf(s, s.threads[e.t].node) == s.threads[e.t].node
  }

  predicate OrderlyRun(s: State, es: seq<Event>)
    decreases |es|
  {
    es == [] || (Enabled(s, es[0]) && TakesOrderly(s, es[0]) && OrderlyRun(Apply(s, es[0]), es[1..]))
  }

  // ---- the holder's node names itself ------------------------------------------------------------------

  /** Holds, or releases and has not gone past line 78's load. */
  predicate Early(pc: Pc) {
    pc.Holding? || pc.UnlockPeek? || pc.UnlockLoad?
  }

  function ClearedThread(th: Thread): Thread {
    th.(pc := if th.pc.UnlockLoad? then UnlockSwap else th.pc)
  }

  /** The state in which the node of t had come with next NULL. */
  function Cleared(s: State, t: Tid): State
    requires t < |s.threads|
  {
    SetNext(s, s.threads[t].node, NULL).(threads := s.threads[t := ClearedThread(s.threads[t])])
  }

  ghost predicate SelfHeld(s: State, t: Tid) {
    && t < |s.threads| && Early(s.threads[t].pc)
    && NextOf(s, s.threads[t].node) == s.threads[t].node
    && Ordered(Cleared(s, t))
  }

  /** The only right to enter left is about to be put where nobody looks, or has been. */
  ghost predicate Lost(s: State) {
    && OneToken(s) && s.tail != NULL && s.granted <= s.requests
    && (forall t: Tid :: HasToken(s, t) ==> s.threads[t].pc.UnlockWake? && s.threads[t].succ == s.threads[t].node)
  }

  ghost predicate InOrder(s: State) {
    Ordered(s) || Lost(s) || exists t :: SelfHeld(s, t)
  }

  lemma ChainHasOneToken(s: State)
    requires Chain(s)
    ensures OneToken(s)
  {
    TailNull(s);
    forall t: Tid | HasToken(s, t) ensures |s.queue| > 0 && s.queue[0] == t {
      if s.threads[t].pc.LockLink? {
        var i := PositionOf(s, t);
        assert 0 < i ==> WaiterOk(s, i);
      } else {
        CriticalIsFirst(s, t);
      }
    }
  }

  // ---- a lost lock ------------------------------------------------------------------------------------

  lemma LostStep(s: State, t: Tid)
    requires Lost(s) && Enabled(s, Step(t))
    ensures Lost(Apply(s, Step(t)))
  {
    var s' := Apply(s, Step(t));
    StepToken(s, t);
    OwnToken(s, t);
    assert HasToken(s, t) <==> s.threads[t].pc.UnlockWake?;
    forall u: Tid | u != t && HasToken(s', u) ensures HasToken(s, u) && s'.threads[u] == s.threads[u] {
      OthersTokens(s, t, u);
    }
    LostGrants(s, t);
  }

  lemma LostGrants(s: State, t: Tid)
    requires Lost(s) && Enabled(s, Step(t))
    ensures Apply(s, Step(t)).granted == s.granted && s.requests <= Apply(s, Step(t)).requests
  {
    assert !HasToken(s, t) || s.threads[t].pc.UnlockWake?;
  }

  lemma LostKept(s: State, e: Event)
    requires Lost(s) && Enabled(s, e)
    ensures Lost(Apply(s, e))
  {
    if e.Step? {
      LostStep(s, e.t);
    } else {
      TokenKept(s, e);
      if e.CallUnlock? { assert HasToken(s, e.t); }
      forall u: Tid | HasToken(Apply(s, e), u) ensures HasToken(s, u) && Apply(s, e).threads[u] == s.threads[u] { }
    }
  }

  // ---- steps while the holder's node names itself ---------------------------------------------------------

  lemma SelfFacts(s: State, t: Tid)
    requires SelfHeld(s, t)
    ensures |s.queue| > 0 && s.queue[0] == t && s.tail != NULL && s.granted <= s.requests
    ensures OneToken(s) && HasToken(s, t) && Nodes(s)
  {
    var c := Cleared(s, t);
    assert c.threads[t] == ClearedThread(s.threads[t]);
    CriticalIsFirst(c, t);
    TailNull(c);
    ChainHasOneToken(c);
    assert HasToken(c, t);
    forall u: Tid | HasToken(s, u) ensures u == t {
      assert u != t ==> c.threads[u] == s.threads[u];
      assert HasToken(c, u);
    }
    SelfNodes(s, t);
  }

  lemma SelfNodes(s: State, t: Tid)
    requires t < |s.threads| && !s.threads[t].pc.Idle? && Nodes(Cleared(s, t))
    requires NextOf(s, s.threads[t].node) == s.threads[t].node
    ensures Nodes(s)
  {
    var c := Cleared(s, t);
    assert forall u :: 0 <= u < |s.threads| ==>
      c.threads[u].node == s.threads[u].node && c.threads[u].pc.Idle? == s.threads[u].pc.Idle?;
  }

  /** The holder itself: it goes on, or reads its own node as its successor. */
  lemma SelfHolder(s: State, t: Tid, e: Event)
    requires SelfHeld(s, t) && Enabled(s, e) && (e == CallUnlock(t) || e == Step(t))
    ensures InOrder(Apply(s, e))
  {
    SelfFacts(s, t);
    var c, s' := Cleared(s, t), Apply(s, e);
    if s.threads[t].pc.UnlockLoad? {
      StepToken(s, t);
      assert s'.threads[t].pc.UnlockWake? && s'.threads[t].succ == s'.threads[t].node;
      assert HasToken(s', t);
      assert Lost(s');
    } else {
      assert Enabled(c, e);
      OrderedKept(c, e);
      assert Cleared(s', t) == Apply(c, e);
      assert SelfHeld(s', t);
    }
  }

  /** Calls that begin, and nodes outside the lock that are overwritten. */
  lemma SelfCall(s: State, t: Tid, e: Event)
    requires SelfHeld(s, t) && Enabled(s, e) && !e.Step? && e != CallUnlock(t)
    ensures SelfHeld(Apply(s, e), t)
  {
    SelfFacts(s, t);
    if e.CallUnlock? { assert HasToken(s, e.t); }
    ClearedEnables(s, t, e);
    OrderedKept(Cleared(s, t), e);
    ClearedCalls(s, t, e);
  }

  lemma ClearedEnables(s: State, t: Tid, e: Event)
    requires t < |s.threads| && !s.threads[t].pc.Idle? && Enabled(s, e) && !e.Step? && !e.CallUnlock?
    ensures Enabled(Cleared(s, t), e)
  {
    var c := Cleared(s, t);
    assert forall u :: 0 <= u < |s.threads| ==>
      c.threads[u].node == s.threads[u].node && c.threads[u].pc.Idle? == s.threads[u].pc.Idle?;
    assert forall n :: InUse(c, n) ==> InUse(s, n);
  }

  lemma ClearedCalls(s: State, t: Tid, e: Event)
    requires t < |s.threads| && !s.threads[t].pc.Idle? && Enabled(s, e) && !e.Step? && !e.CallUnlock?
    ensures Apply(s, e).threads[t] == s.threads[t]
    ensures NextOf(Apply(s, e), s.threads[t].node) == NextOf(s, s.threads[t].node)
    ensures Cleared(Apply(s, e), t) == Apply(Cleared(s, t), e)
  {
    if e.Scribble? {
      assert InUse(s, s.threads[t].node);
      assert Cleared(Apply(s, e), t).nodes == Apply(Cleared(s, t), e).nodes;
    } else {
      assert Cleared(Apply(s, e), t).threads == Apply(Cleared(s, t), e).threads;
    }
  }

  /** The node a step of another thread writes is not the holder's, unless it is line 44's. */
  lemma SelfWaiter(s: State, t: Tid, u: Tid)
    requires SelfHeld(s, t) && u != t && Enabled(s, Step(u))
    requires !(s.threads[u].pc.LockLink? && s.threads[u].pre == s.threads[t].node)
    ensures SelfHeld(Apply(s, Step(u)), t)
  {
    SelfFacts(s, t);
    assert !HasToken(s, u);
    assert s.threads[u].node != s.threads[t].node;
    StoresElsewhere(s, t, u);
    ClearedCommutes(s, t, u);
    OrderedKept(Cleared(s, t), Step(u));
  }

  /** Thread u waits or is on its way in, and its next step writes no word of t's node. */
  ghost predicate Elsewhere(s: State, t: Tid, u: Tid) {
    && t < |s.threads| && u < |s.threads| && u != t && s.tail != NULL && s.threads[u].node != s.threads[t].node
    && InLock(s.threads[u].pc)
    && (s.threads[u].pc.LockLink? ==> s.threads[u].pre != s.threads[t].node)
  }

  lemma StoresElsewhere(s: State, t: Tid, u: Tid)
    requires Elsewhere(s, t, u)
    ensures Apply(s, Step(u)).threads == s.threads[u := Apply(s, Step(u)).threads[u]]
    ensures NextOf(Apply(s, Step(u)), s.threads[t].node) == NextOf(s, s.threads[t].node)
  {
  }

  lemma ClearedCommutes(s: State, t: Tid, u: Tid)
    requires Elsewhere(s, t, u)
    ensures Cleared(Apply(s, Step(u)), t) == Apply(Cleared(s, t), Step(u))
  {
    var c := Cleared(s, t);
    assert c.threads[u] == s.threads[u];
    ClearedNodes(s, t, u);
    assert Cleared(Apply(s, Step(u)), t).threads == Apply(c, Step(u)).threads;
  }

  lemma ClearedNodes(s: State, t: Tid, u: Tid)
    requires Elsewhere(s, t, u)
    ensures Cleared(Apply(s, Step(u)), t).nodes == Apply(Cleared(s, t), Step(u)).nodes
  {
  }

  lemma SuccessorIsSecond(c: State, u: Tid)
    requires Chain(c) && u < |c.threads| && c.threads[u].pc.LockLink?
    requires |c.queue| > 0 && c.threads[u].pre == At(c, 0).node
    ensures |c.queue| > 1 && c.queue[1] == u
  {
    var k := PositionOf(c, u);
    assert k > 0 && WaiterOk(c, k);
    assert At(c, k - 1).node == At(c, 0).node;
  }

  /** The successor links itself over the stale pointer: the chain is as good as any. */
  lemma SelfLinked(s: State, t: Tid, u: Tid)
    requires SelfHeld(s, t) && u != t && Enabled(s, Step(u))
    requires s.threads[u].pc.LockLink? && s.threads[u].pre == s.threads[t].node
    ensures Ordered(Apply(s, Step(u)))
  {
    SelfFacts(s, t);
    var c, s' := Cleared(s, t), Apply(s, Step(u));
    assert c.threads[u] == s.threads[u];
    OrderedKept(c, Step(u));
    var c' := Apply(c, Step(u));
    assert s'.nodes == c'.nodes;
    if s.threads[t].pc.UnlockLoad? {
      SuccessorIsSecond(c, u);
      assert c'.threads[u].pc.LockSpin?;
      FirstMovesOthers(c', s', s.threads[t]);
      FirstMovesChain(c', s', s.threads[t]);
    } else {
      assert s' == c';
    }
  }

  lemma SelfKept(s: State, t: Tid, e: Event)
    requires SelfHeld(s, t) && Enabled(s, e)
    ensures InOrder(Apply(s, e))
  {
    if e == CallUnlock(t) || e == Step(t) {
      SelfHolder(s, t, e);
    } else if !e.Step? {
      SelfCall(s, t, e);
    } else if s.threads[e.t].pc.LockLink? && s.threads[e.t].pre == s.threads[t].node {
      SelfLinked(s, t, e.t);
    } else {
      SelfWaiter(s, t, e.t);
    }
  }

  /** A trylock takes the lock with a node that names itself. */
  lemma SelfTaken(s: State, t: Tid)
    requires Ordered(s) && t < |s.threads| && s.threads[t].pc.TrySwap? && s.tail == NULL
    requires NextOf(s, s.threads[t].node) == s.threads[t].node
    ensures SelfHeld(Apply(s, Step(t)), t)
  {
    var c := SetNext(s, s.threads[t].node, NULL);
    OutsideOrdered(s, c, t);
    OrderedKept(c, Step(t));
    assert Cleared(Apply(s, Step(t)), t) == Apply(c, Step(t));
  }

  lemma InOrderKept(s: State, e: Event)
    requires InOrder(s) && Enabled(s, e) && TakesOrderly(s, e)
    ensures InOrder(Apply(s, e))
  {
    if Lost(s) {
      LostKept(s, e);
    } else if Ordered(s) {
      if TakesClean(s, e) { OrderedKept(s, e); } else { SelfTaken(s, e.t); }
    } else {
      var t :| SelfHeld(s, t);
      SelfKept(s, t, e);
    }
  }

  lemma {:induction false} InOrderAlways(s: State, es: seq<Event>)
    requires InOrder(s) && OrderlyRun(s, es)
    ensures Possible(s, es) && InOrder(Exec(s, es))
    decreases |es|
  {
    if es == [] {
    } else {
      InOrderKept(s, es[0]);
      InOrderAlways(Apply(s, es[0]), es[1..]);
    }
  }

  lemma ServedInOrder(s: State)
    requires InOrder(s)
    ensures s.granted <= s.requests
  {
    if !Ordered(s) && !Lost(s) {
      var t :| SelfHeld(s, t);
      SelfFacts(s, t);
    }
  }

  /** FIFO (mcs_lock.h:37-48, 60-78, 84; README:29): the lock is granted in the order of the exchanges and the
      successful trylocks. */
  lemma Fifo(n: nat, nodes: map<NodeId, LockNode>, es: seq<Event>)
    requires OrderlyRun(Init(n, nodes), es)
    ensures Possible(Init(n, nodes), es)
    ensures Exec(Init(n, nodes), es).granted <= Exec(Init(n, nodes), es).requests
  {
    InOrderAlways(Init(n, nodes), es);
    ServedInOrder(Exec(Init(n, nodes), es));
  }
}
