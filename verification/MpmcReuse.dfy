/** When a freed block may be handed out again, exactly: what goes wrong while a thread would be misled by it, and
    runs that get there. */
module MpmcReuse {
  import opened VersionedPointers
  import opened MpmcModel
  import opened MpmcInvariant
  import opened MpmcSteps
  import opened MpmcRuns
  import opened MpmcLinearizability
  import opened MpmcProgress

  // ---- an enqueuer before line 147 ---------------------------------------------------------------------

  /** Nothing in the queue that starts at q's head has changed. */
  ghost predicate SameQueue(q: Shared, q': Shared) {
    && q'.head == q.head && q'.tail == q.tail
    && forall i :: 0 <= q.head.version <= i < |q.nodes| ==> NextOf(q', q.nodes[i]) == NextOf(q, q.nodes[i])
  }

  /** An enqueuer stopped before line 147 whose tail node has been freed since. */
  ghost predicate Overslept(q: Shared, th: Thread) {
    && th.pc.EnqLink? && th.next == NIL
    && th.tail.ptr in q.freed && th.tail.ptr != q.tail.ptr
    && (forall i :: q.head.version <= i < |q.nodes| ==> q.nodes[i] != th.tail.ptr)
  }

  /** Suppose an enqueue of thread u were given the block that t has as its tail node, and t took its next
      three steps: it returns as if it had enqueued its value, and the queue has not changed. */
  ghost predicate Strays(s: State, t: Tid, u: Tid, value: Data, junk: Data)
    requires t < |s.threads| && u < |s.threads|
  {
    var s1 := Apply(s, CallEnqueue(u, value, s.threads[t].tail.ptr));
    var s2 := Apply(Apply(Apply(s1, Step(t, junk)), Step(t, junk)), Step(t, junk));
    && |s2.calls| == |s.calls| + 1 && s2.calls[|s.calls|].tid == t
    && s2.calls[|s.calls|].answer == Enqueued(s.threads[t].data)
    && SameQueue(s.q, s2.q)
  }

  lemma OversleptStrays(s: State, t: Tid, u: Tid, value: Data, junk: Data)
    requires t < |s.threads| && u < |s.threads| && t != u && Overslept(s.q, s.threads[t])
    ensures Strays(s, t, u, value, junk)
  {
    var s1 := Apply(s, CallEnqueue(u, value, s.threads[t].tail.ptr));
    assert s1.threads[t] == s.threads[t];
    var s2 := Apply(s1, Step(t, junk));
    assert s2.threads[t].pc.EnqSwing?;
    assert SameQueue(s.q, s2.q);
    var s3 := Apply(s2, Step(t, junk));
    assert s3.threads[t].pc.EnqCount? && s3.q == s2.q;
  }

  lemma OversleptFails(q: Shared, threads: seq<Thread>, t: Tid, now: nat)
    requires Safe(q, threads) && t < |threads| && threads[t].pc.EnqLink?
    requires threads[t].next == NIL && threads[t].tail.ptr in q.freed
    ensures Overslept(q, threads[t]) && !InQueue(q, threads[t].node)
    ensures EnqueueMove(q, threads[t], t, now).th.pc == EnqTailPtr
  {
    var th := threads[t];
    assert Private(q, th) && EnqueuerOk(q, th);
    if NextOf(q, th.tail.ptr) == th.next { LinksAtEnd(q, th); }
  }

  /** An enqueuer stopped before line 147 with a tail node that has been freed since fails there, because the block
      does not hold what the enqueuer read. But line 136 resets the version to 0: if another enqueue is given
      that block, the DCAS finds what it expects, and mpmc_enqueue returns while its node is not in the queue. */
  lemma RecycledBlockIsLinked(s: State, t: Tid, u: Tid, value: Data, junk: Data)
    requires Safe(s.q, s.threads) && t < |s.threads| && u < |s.threads|
    requires s.threads[t].pc.EnqLink? && s.threads[t].next == NIL && s.threads[t].tail.ptr in s.q.freed
    requires s.threads[u].pc.Idle?
    ensures EnqueueMove(s.q, s.threads[t], t, |s.log|).th.pc == EnqTailPtr
    ensures Strays(s, t, u, value, junk) && !InQueue(s.q, s.threads[t].node)
  {
    OversleptFails(s.q, s.threads, t, |s.log|);
    OversleptStrays(s, t, u, value, junk);
  }

  // ---- mpmc_queue_empty between its loads ------------------------------------------------------------------

  /** Suppose an enqueue of thread u were given the block t has as its head: t says that the queue is empty. */
  ghost predicate LooksEmpty(s: State, t: Tid, u: Tid, value: Data, now: nat)
    requires t < |s.threads| && u < |s.threads| && t != u
  {
    var s1 := Apply(s, CallEnqueue(u, value, s.threads[t].head.ptr));
    EmptyMove(s1.q, s1.threads[t], now).answer == SaidEmpty(true) && Abs(s1.q) == Abs(s.q)
  }

  /** mpmc_queue_empty stopped between its loads with a head that has been freed since says "not empty", for which
      there was a moment; if an enqueue is given the block, it says "empty", whatever the queue holds. */
  lemma RecycledBlockLooksEmpty(s: State, t: Tid, u: Tid, value: Data, now: nat)
    requires Safe(s.q, s.threads) && t < |s.threads| && u < |s.threads| && t != u
    requires s.threads[t].pc.EmpNextPtr? && s.threads[t].head.ptr in s.q.freed
    ensures EmptyMove(s.q, s.threads[t], now).answer == SaidEmpty(false)
    ensures LooksEmpty(s, t, u, value, now)
  {
    FreedHasSuccessor(s.q, s.threads, t);
    AllocHasNone(s, t, u, value, now);
  }

  lemma FreedHasSuccessor(q: Shared, threads: seq<Thread>, t: Tid)
    requires Safe(q, threads) && t < |threads| && threads[t].pc.EmpNextPtr? && threads[t].head.ptr in q.freed
    ensures NextOf(q, threads[t].head.ptr).ptr != NULL
  {
    assert DequeuerOk(q, threads[t]);
    if NextOf(q, threads[t].head.ptr).ptr == NULL { LastMeansEmpty(q, threads[t].head.ptr); }
  }

  lemma AllocHasNone(s: State, t: Tid, u: Tid, value: Data, now: nat)
    requires t < |s.threads| && u < |s.threads| && t != u && s.threads[t].pc.EmpNextPtr?
    ensures LooksEmpty(s, t, u, value, now)
  {
  }

  // ---- the exact condition --------------------------------------------------------------------------------

  /** Thread t answers for a block that is not in the queue if u's enqueue is handed it: its own enqueue returns behind
      the block, or it finds the queue empty there. */
  ghost predicate GoesWrong(s: State, t: Tid, u: Tid, a: Addr, value: Data)
    requires t < |s.threads| && u < |s.threads| && t != u
  {
    || (s.threads[t].pc.EnqLink? && s.threads[t].tail.ptr == a && Strays(s, t, u, value, 0))
    || (s.threads[t].pc.EmpNextPtr? && s.threads[t].head.ptr == a && LooksEmpty(s, t, u, value, 0))
  }

  lemma GoesWrongExactly(s: State, t: Tid, u: Tid, a: Addr, value: Data)
    requires Safe(s.q, s.threads) && t < |s.threads| && u < |s.threads| && t != u
    requires s.threads[u].pc.Idle? && a in s.q.freed
    ensures GoesWrong(s, t, u, a, value) <==> Misled(s.threads[t], a, NIL)
  {
    var th := s.threads[t];
    if Misled(th, a, NIL) {
      if th.pc.EnqLink? {
        RecycledBlockIsLinked(s, t, u, value, 0);
      } else {
        RecycledBlockLooksEmpty(s, t, u, value, 0);
      }
    } else if th.pc.EnqLink? && th.tail.ptr == a {
      StrangerDoesNotStray(s, t, u, value);
    }
  }

  lemma StrangerDoesNotStray(s: State, t: Tid, u: Tid, value: Data)
    requires t < |s.threads| && u < |s.threads| && t != u
    requires s.threads[t].pc.EnqLink? && s.threads[t].next != NIL
    ensures !Strays(s, t, u, value, 0)
  {
    var s1 := Apply(s, CallEnqueue(u, value, s.threads[t].tail.ptr));
    assert s1.threads[t] == s.threads[t] && s1.calls == s.calls;
    var s2 := Apply(s1, Step(t, 0));
    assert s2.threads[t].pc.EnqTailPtr? && s2.calls == s.calls;
    var s3 := Apply(s2, Step(t, 0));
    assert s3.threads[t].pc.EnqTailVer? && s3.calls == s.calls;
  }

  /** What the queue needs of its allocator, exactly: a freed block may be handed to an enqueue again, and all that is
      proved of runs goes on to hold, if and only if no thread would answer for it in that way. */
  lemma ReusableExactly(s: State, u: Tid, a: Addr, value: Data)
    requires Safe(s.q, s.threads) && u < |s.threads| && s.threads[u].pc.Idle? && a in s.q.freed
    ensures Enabled(s, CallEnqueue(u, value, a)) <==>
      forall t :: 0 <= t < |s.threads| && t != u ==> !GoesWrong(s, t, u, a, value)
  {
    forall t: Tid | t < |s.threads| && t != u
      ensures GoesWrong(s, t, u, a, value) <==> Misled(s.threads[t], a, NIL)
    {
      GoesWrongExactly(s, t, u, a, value);
    }
    assert a in s.q.mem && a != NULL;
  }

  // ---- runs that get there --------------------------------------------------------------------------------

  /** Whatever can happen in a state of R leads to a state of R. */
  ghost predicate Closed(R: State -> bool) {
    forall s, e :: R(s) && Enabled(s, e) ==> R(Apply(s, e))
  }

  /** The next step of thread u, as far as the program goes. */
  lemma Go(R: State -> bool, s: State, u: Tid) returns (s': State)
    requires Closed(R) && R(s) && u < |s.threads| && !s.threads[u].pc.Idle?
    ensures R(s')
    ensures var m := StepMove(s.q, s.threads[u], u, |s.log|, 0); s'.q == m.q && s'.threads == s.threads[u := m.th]
  {
    s' := Apply(s, Step(u, 0));
  }

  lemma Begin(R: State -> bool, s: State, e: Event) returns (s': State)
    requires Closed(R) && R(s) && Enabled(s, e) && Begins(e)
    ensures R(s')
    ensures var m := CallMove(s.q, s.threads[e.t], e, |s.log|); s'.q == m.q && s'.threads == s.threads[e.t := m.th]
  {
    s' := Apply(s, e);
  }

  /** The others stand still. */
  ghost predicate OnlyMoves(threads: seq<Thread>, threads': seq<Thread>, u: Tid) {
    && |threads'| == |threads| && u < |threads|
    && (forall t :: 0 <= t < |threads| && t != u ==> threads'[t] == threads[t])
  }

  /** The tail is the last node, whose next word is NIL. */
  ghost predicate Settled(q: Shared) {
    && q.tail.version + 1 == |q.nodes| && q.tail.ptr == q.nodes[q.tail.version]
    && NextOf(q, q.tail.ptr) == NIL && q.tail.ptr in q.mem
  }

  /** Thread u goes through lines 130-144 alone, up to the DCAS that links its node. */
  lemma ReadsTail(R: State -> bool, s1: State, u: Tid, value: Data, block: Addr) returns (s: State)
    requires Closed(R) && R(s1) && Settled(s1.q) && u < |s1.threads| && s1.threads[u].pc.Idle?
    requires block != NULL && block !in s1.q.mem
    ensures R(s) && OnlyMoves(s1.threads, s.threads, u) && s.q == Alloc(s1.q, block, value)
    ensures var th := s.threads[u];
      th.pc.EnqLink? && th.tail == s1.q.tail && th.next == NIL && th.node == block && th.data == value
  {
    s := Begin(R, s1, CallEnqueue(u, value, block));
    s := Go(R, s, u);
    s := Go(R, s, u);
    s := Go(R, s, u);
    s := Go(R, s, u);
    s := Go(R, s, u);
    s := Go(R, s, u);
  }

  /** The queue after a whole enqueue of value in block. */
  function Longer(q: Shared, block: Addr, value: Data): Shared {
    Linking(Alloc(q, block, value), block, value).(tail := VersionedPointer(block, q.tail.version + 1))
  }

  /** A whole enqueue by a thread that runs alone, whatever the others are stopped at. */
  lemma Enqueues(R: State -> bool, s1: State, u: Tid, value: Data, block: Addr) returns (s: State)
    requires Closed(R) && R(s1) && Settled(s1.q) && u < |s1.threads| && s1.threads[u].pc.Idle?
    requires block != NULL && block !in s1.q.mem
    ensures R(s) && OnlyMoves(s1.threads, s.threads, u) && s.threads[u].pc.Idle?
    ensures s.q == Longer(s1.q, block, value) && Settled(s.q)
  {
    s := ReadsTail(R, s1, u, value, block);
    assert NextOf(s.q, s.q.tail.ptr) == NIL;
    s := Go(R, s, u);
    s := Go(R, s, u);
    s := Go(R, s, u);
  }

  /** Thread u goes through lines 185-187 alone. */
  lemma ReadsCells(R: State -> bool, s1: State, u: Tid) returns (s: State)
    requires Closed(R) && R(s1) && u < |s1.threads| && s1.threads[u].pc.Idle?
    ensures R(s) && OnlyMoves(s1.threads, s.threads, u) && s.q == s1.q
    ensures s.threads[u].pc.DeqNextPtr? && s.threads[u].head == s1.q.head && s.threads[u].tail == s1.q.tail
  {
    s := Begin(R, s1, CallDequeue(u));
    s := Go(R, s, u);
    s := Go(R, s, u);
    s := Go(R, s, u);
    s := Go(R, s, u);
  }

  lemma ReadsNext(R: State -> bool, s1: State, u: Tid) returns (s: State)
    requires Closed(R) && R(s1) && u < |s1.threads| && s1.threads[u].pc.Idle?
    ensures R(s) && OnlyMoves(s1.threads, s.threads, u) && s.q == s1.q
    ensures s.threads[u].pc.DeqCheckPtr? && s.threads[u].head == s1.q.head && s.threads[u].tail == s1.q.tail
  {
    s := ReadsCells(R, s1, u);
    s := Go(R, s, u);
    s := Go(R, s, u);
  }

  /** Thread u goes through lines 185-202 alone, up to the DCAS on the head. */
  lemma ReadsHead(R: State -> bool, s1: State, u: Tid) returns (s: State)
    requires Closed(R) && R(s1) && u < |s1.threads| && s1.threads[u].pc.Idle? && s1.q.head.ptr != s1.q.tail.ptr
    ensures R(s) && OnlyMoves(s1.threads, s.threads, u) && s.q == s1.q
    ensures s.threads[u].pc.DeqSwing? && s.threads[u].head == s1.q.head
  {
    s := ReadsNext(R, s1, u);
    s := Go(R, s, u);
    s := Go(R, s, u);
    s := Go(R, s, u);
  }

  /** A whole dequeue by a thread that runs alone frees the dummy. */
  lemma Dequeues(R: State -> bool, s1: State, u: Tid) returns (s: State)
    requires Closed(R) && R(s1) && u < |s1.threads| && s1.threads[u].pc.Idle? && s1.q.head.ptr != s1.q.tail.ptr
    ensures R(s) && OnlyMoves(s1.threads, s.threads, u) && s.threads[u].pc.Idle?
    ensures s.q.freed == s1.q.freed + {s1.q.head.ptr} && s.q.values == s1.q.values
    ensures s.q.head.version == s1.q.head.version + 1
  {
    s := ReadsHead(R, s1, u);
    s := Go(R, s, u);
    s := Go(R, s, u);
    s := Go(R, s, u);
  }

  lemma OversleptFrom(R: State -> bool, s0: State, dummy: Addr, garbage: Data, value: Data, value': Data)
    returns (s: State)
    requires Closed(R) && dummy != NULL && s0 == Init(2, dummy, garbage) && R(s0)
    ensures R(s) && |s.threads| == 2 && s.threads[1].pc.Idle?
    ensures var th := s.threads[0]; th.pc.EnqLink? && th.next == NIL && th.tail.ptr in s.q.freed
  {
    s := ReadsTail(R, s0, 0, value, dummy + 1);
    assert s.q.mem.Keys == {dummy, dummy + 1};
    s := Enqueues(R, s, 1, value', dummy + 2);
    s := Dequeues(R, s, 1);
  }

  lemma AskingFrom(R: State -> bool, s0: State, dummy: Addr, garbage: Data, value: Data, value': Data)
    returns (s: State)
    requires Closed(R) && dummy != NULL && s0 == Init(2, dummy, garbage) && R(s0)
    ensures R(s) && |s.threads| == 2 && s.threads[1].pc.Idle? && Abs(s.q) == [value']
    ensures s.threads[0].pc.EmpNextPtr? && s.threads[0].head.ptr in s.q.freed
  {
    s := Enqueues(R, s0, 1, value, dummy + 1);
    assert s.q.values == [garbage, value] && s.q.head == s0.q.head && s.q.mem.Keys == {dummy, dummy + 1};
    s := Enqueues(R, s, 1, value', dummy + 2);
    assert s.q.values == [garbage, value, value'] && s.q.head == s0.q.head;
    s := Begin(R, s, CallEmpty(0));
    s := Go(R, s, 0);
    s := Dequeues(R, s, 1);
  }

  ghost predicate CanBe(s0: State, s: State) {
    exists es :: Admissible(s0, es) && Exec(s0, es) == s
  }

  lemma CanBeMore(s0: State, s: State, e: Event)
    requires CanBe(s0, s) && Enabled(s, e)
    ensures CanBe(s0, Apply(s, e))
  {
    var es :| Admissible(s0, es) && Exec(s0, es) == s;
    ExecMore(s0, es, e);
  }

  lemma {:induction false} ExecMore(s: State, es: seq<Event>, e: Event)
    requires Admissible(s, es) && Enabled(Exec(s, es), e)
    ensures Admissible(s, es + [e]) && Exec(s, es + [e]) == Apply(Exec(s, es), e)
    decreases |es|
  {
    if es == [] {
      assert [] + [e] == [e] && [e][1..] == [];
    } else {
      assert (es + [e])[1..] == es[1..] + [e];
      ExecMore(Apply(s, es[0]), es[1..], e);
    }
  }

  lemma ReachableIsClosed(s0: State)
    ensures Closed(s => CanBe(s0, s)) && CanBe(s0, s0)
  {
    assert Admissible(s0, []) && Exec(s0, []) == s0;
    forall s, e | CanBe(s0, s) && Enabled(s, e) ensures CanBe(s0, Apply(s, e)) { CanBeMore(s0, s, e); }
  }

  /** With two threads, and whatever the blocks and values are, a run leads to an enqueuer that holds a freed block
      in the way RecycledBlockIsLinked speaks of. */
  lemma LinkIsReached(dummy: Addr, garbage: Data, value: Data, value': Data) returns (es: seq<Event>, s: State)
    requires dummy != NULL
    ensures Reachable(s, 2, dummy, garbage, es) && |s.threads| == 2 && s.threads[1].pc.Idle?
    ensures var th := s.threads[0]; th.pc.EnqLink? && th.next == NIL && th.tail.ptr in s.q.freed
  {
    var s0 := Init(2, dummy, garbage);
    ReachableIsClosed(s0);
    s := OversleptFrom(s' => CanBe(s0, s'), s0, dummy, garbage, value, value');
    es :| Admissible(s0, es) && Exec(s0, es) == s;
  }

  /** And one leads to an mpmc_queue_empty as in RecycledBlockLooksEmpty, while the queue holds a value that it held
      when the call began. */
  lemma EmptyIsReached(dummy: Addr, garbage: Data, value: Data, value': Data) returns (es: seq<Event>, s: State)
    requires dummy != NULL
    ensures Reachable(s, 2, dummy, garbage, es) && |s.threads| == 2 && s.threads[1].pc.Idle? && Abs(s.q) == [value']
    ensures s.threads[0].pc.EmpNextPtr? && s.threads[0].head.ptr in s.q.freed
  {
    var s0 := Init(2, dummy, garbage);
    ReachableIsClosed(s0);
    s := AskingFrom(s' => CanBe(s0, s'), s0, dummy, garbage, value, value');
    es :| Admissible(s0, es) && Exec(s0, es) == s;
  }
}
