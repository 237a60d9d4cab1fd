/** Everything proved of a reachable state in one predicate, and a dequeue that runs alone. */
module MpmcTeardown {
  import opened VersionedPointers
  import opened MpmcModel
  import opened MpmcInvariant
  import opened MpmcSteps
  import opened MpmcRuns
  import opened MpmcLinearizability
  import opened MpmcProgress
  import opened MpmcAccounting

  ghost predicate Good(s: State) {
    Safe(s.q, s.threads) && AllBounded(s) && Linearized(s) && ThreadPoints(s) && LengthOk(s)
  }

  lemma GoodKept(s: State, e: Event)
    requires Good(s) && Enabled(s, e)
    ensures Good(Apply(s, e))
  {
    SafeKept(s, e);
    BoundedKept(s, e);
    LinearizedKept(s, e);
    LengthKept(s, e);
  }

  lemma GoodInit(n: nat, dummy: Addr, garbage: Data)
    requires dummy != NULL
    ensures Good(Init(n, dummy, garbage))
  {
    InitSafe(n, dummy, garbage);
    var s := Init(n, dummy, garbage);
    CountNone(s.threads, NotAdded);
    CountNone(s.threads, NotSubtracted);
  }

  /** The words a thread's next step dereferences exist, and the block it frees is not freed yet. */
  ghost predicate ReadsExist(q: Shared, th: Thread) {
    (forall a :: Touches(th, a) ==> a in q.mem) && (th.pc.DeqFree? ==> th.head.ptr !in q.freed)
  }

  lemma GoodReads(s: State, t: Tid)
    requires Good(s) && t < |s.threads|
    ensures ReadsExist(s.q, s.threads[t])
  {
    assert EnqueuerOk(s.q, s.threads[t]) && DequeuerOk(s.q, s.threads[t]);
  }

  ghost predicate OthersIdle(threads: seq<Thread>, t: Tid) {
    forall u :: 0 <= u < |threads| && u != t ==> threads[u].pc.Idle?
  }

  /** A dequeue that began in q0, a queue with values in it, and has run alone since. */
  ghost predicate Draining(q0: Shared, q: Shared, th: Thread) {
    && q.nodes == q0.nodes && q.values == q0.values && q.mem.Keys == q0.mem.Keys
    && q0.head.version + 1 < |q0.values|
    && !InEnqueue(th.pc) && !InEmpty(th.pc)
    && (Retrying(th.pc) ==> q.head == q0.head && q.freed == q0.freed && th.mark == Wins(q))
    && (!Retrying(th.pc) ==> q.head.version == q0.head.version + 1 && th.data == q0.values[q0.head.version + 1])
    && (th.pc.DeqCount? || th.pc.DeqFree? ==> q.freed == q0.freed && th.head == q0.head)
    && (th.pc.Idle? ==> q.freed == q0.freed + {q0.head.ptr})
  }

  lemma DrainReads(q0: Shared, q: Shared, th: Thread, t: Tid, now: nat, junk: Data)
    requires Draining(q0, q, th) && (DequeueLoad(th.pc) || th.pc.DeqCheckPtr? || th.pc.DeqData?)
    ensures var m := DequeueMove(q, th, t, now, junk); Draining(q0, m.q, m.th)
  {
  }

  /** The call does not find the queue empty. */
  lemma DrainCheck(q0: Shared, q: Shared, th: Thread, t: Tid, now: nat, junk: Data)
    requires Shape(q) && Bounded(q, th) && Draining(q0, q, th) && th.pc.DeqCheckVer?
    ensures var m := DequeueMove(q, th, t, now, junk); Draining(q0, m.q, m.th)
  {
    NextOfNode(q, q.head.version);
    assert th.next.ptr != NULL;
  }

  lemma DrainWrites(q0: Shared, q: Shared, th: Thread, t: Tid, now: nat, junk: Data)
    requires DequeuerOk(q, th) && Draining(q0, q, th)
    requires th.pc.DeqHelp? || th.pc.DeqSwing? || th.pc.DeqCount? || (th.pc.DeqFree? && th.head.ptr in q.mem)
    ensures var m := DequeueMove(q, th, t, now, junk); Draining(q0, m.q, m.th)
  {
  }

  ghost predicate DrainingAlone(q0: Shared, s: State, t: Tid) {
    Good(s) && t < |s.threads| && OthersIdle(s.threads, t) && Draining(q0, s.q, s.threads[t])
  }

  lemma DrainMove(q0: Shared, s: State, t: Tid, junk: Data)
    requires DrainingAlone(q0, s, t) && !s.threads[t].pc.Idle?
    ensures var m := MoveOf(s, Step(t, junk)); Draining(q0, m.q, m.th)
  {
    var th := s.threads[t];
    assert DequeuerOk(s.q, th) && Bounded(s.q, th);
    if th.pc.DeqCheckVer? {
      DrainCheck(q0, s.q, th, t, |s.log|, junk);
    } else if DequeueLoad(th.pc) || th.pc.DeqCheckPtr? || th.pc.DeqData? {
      DrainReads(q0, s.q, th, t, |s.log|, junk);
    } else {
      DrainWrites(q0, s.q, th, t, |s.log|, junk);
    }
  }

  lemma DrainStep(q0: Shared, s: State, t: Tid, junk: Data)
    requires DrainingAlone(q0, s, t) && !s.threads[t].pc.Idle?
    ensures DrainingAlone(q0, Apply(s, Step(t, junk)), t)
    ensures ReadsExist(s.q, s.threads[t])
  {
    var s' := Apply(s, Step(t, junk));
    assert Draining(q0, s'.q, s'.threads[t]) by { DrainMove(q0, s, t, junk); }
    assert Good(s') by { GoodKept(s, Step(t, junk)); }
    GoodReads(s, t);
  }

  lemma DrainStart(s: State, t: Tid)
    requires Good(s) && Quiescent(s) && t < |s.threads| && Abs(s.q) != []
    ensures DrainingAlone(s.q, Apply(s, CallDequeue(t)), t)
  {
    var s' := Apply(s, CallDequeue(t));
    assert Good(s') by { GoodKept(s, CallDequeue(t)); }
    CallDrains(s.q, s.threads[t], t, |s.log|);
    assert s'.q == s.q && s'.threads == s.threads[t := CallMove(s.q, s.threads[t], CallDequeue(t), |s.log|).th];
  }

  lemma CallDrains(q: Shared, th: Thread, t: Tid, now: nat)
    requires |q.nodes| == |q.values| && Abs(q) != []
    ensures var m := CallMove(q, th, CallDequeue(t), now); Draining(q, m.q, m.th)
  {
  }

  /** One value was taken, and the block in front of it freed. */
  ghost predicate Drained(s: State, s': State, value: Data) {
    && Quiescent(s') && |s'.threads| == |s.threads|
    && Abs(s.q) != [] && value == Abs(s.q)[0] && Abs(s'.q) == Abs(s.q)[1..]
    && s'.q.freed == s.q.freed + {s.q.head.ptr} && s'.q.mem.Keys == s.q.mem.Keys
    && s'.q.nodes == s.q.nodes && s'.q.values == s.q.values && s'.q.head.version == s.q.head.version + 1
  }

  lemma DrainEnd(s: State, s': State, t: Tid)
    requires DrainingAlone(s.q, s', t) && s'.threads[t].pc.Idle? && |s'.threads| == |s.threads|
    ensures Drained(s, s', s'.threads[t].data)
  {
  }

  /** mpmc_queue_empty has begun in q0, and no other call runs. */
  ghost predicate Asking(q0: Shared, s: State, t: Tid, pc: Pc) {
    && Good(s) && t < |s.threads| && OthersIdle(s.threads, t) && s.q == q0 && s.threads[t].pc == pc
    && (pc.EmpNextPtr? ==> s.threads[t].head.ptr == q0.head.ptr)
  }

  lemma AskStart(s: State, t: Tid)
    requires Good(s) && Quiescent(s) && t < |s.threads|
    ensures Asking(s.q, Apply(s, CallEmpty(t)), t, EmpHeadPtr)
  {
    GoodKept(s, CallEmpty(t));
  }

  lemma AskHead(q0: Shared, s: State, t: Tid)
    requires Asking(q0, s, t, EmpHeadPtr)
    ensures Asking(q0, Apply(s, Step(t, 0)), t, EmpNextPtr) && q0.head.ptr in q0.mem
  {
    GoodKept(s, Step(t, 0));
  }

  lemma AskNext(q0: Shared, s: State, t: Tid)
    requires Asking(q0, s, t, EmpNextPtr)
    ensures var s' := Apply(s, Step(t, 0));
      && Good(s') && Quiescent(s') && s'.q == q0 && |s'.threads| == |s.threads|
      && |s'.calls| > 0 && s'.calls[|s'.calls| - 1].answer == SaidEmpty(Abs(q0) == [])
  {
    assert Good(Apply(s, Step(t, 0))) by { GoodKept(s, Step(t, 0)); }
    DummyLast(q0);
    EmptyAnswers(s, t);
  }

  lemma EmptyAnswers(s: State, t: Tid)
    requires t < |s.threads| && s.threads[t].pc.EmpNextPtr? && OthersIdle(s.threads, t)
    ensures var s' := Apply(s, Step(t, 0));
      && Quiescent(s') && s'.q == s.q && |s'.threads| == |s.threads| && |s'.calls| > 0
      && s'.calls[|s'.calls| - 1].answer == SaidEmpty(NextOf(s.q, s.threads[t].head.ptr).ptr == NULL)
  {
    assert MoveOf(s, Step(t, 0)) == EmptyMove(s.q, s.threads[t], |s.log|);
  }

  lemma DummyLast(q: Shared)
    requires Shape(q)
    ensures NextOf(q, q.head.ptr).ptr == NULL <==> Abs(q) == []
  {
    NextOfNode(q, q.head.version);
  }

  function NonNull(values: seq<Data>): seq<Data> {
    if values == [] then []
    else NonNull(values[..|values| - 1]) + if values[|values| - 1] != NULL then [values[|values| - 1]] else []
  }

  /** The teardown that began with q0 has come as far as q. */
  ghost predicate Unwound(q0: Shared, q: Shared, disposed: seq<Data>, released: seq<Addr>) {
    && q.mem.Keys == q0.mem.Keys && q.nodes == q0.nodes && q.values == q0.values
    && q0.head.version <= q.head.version < |q.nodes| == |q.values|
    && released == q.nodes[q0.head.version..q.head.version]
    && disposed == NonNull(q.values[q0.head.version + 1..q.head.version + 1])
  }

  lemma NonNullSnoc(values: seq<Data>, first: nat, k: nat)
    requires first <= k < |values|
    ensures NonNull(values[first..k + 1]) == NonNull(values[first..k]) + if values[k] != NULL then [values[k]] else []
  {
    assert values[first..k + 1][..k - first] == values[first..k];
  }

  lemma UnwindOne(q0: Shared, s: State, s': State, data: Data, disposed: seq<Data>, released: seq<Addr>)
    requires Drained(s, s', data) && Unwound(q0, s.q, disposed, released)
    requires s.q.head.ptr == s.q.nodes[s.q.head.version]
    ensures Unwound(q0, s'.q, disposed + if data != NULL then [data] else [], released + [s.q.head.ptr])
  {
    var first, k := q0.head.version, s.q.head.version;
    NonNullSnoc(s.q.values, first + 1, k + 1);
    FirstOfAbs(s.q);
    NodesSnoc(s.q.nodes, first, k);
  }

  lemma FirstOfAbs(q: Shared)
    requires Abs(q) != []
    ensures q.head.version + 1 < |q.values| && Abs(q)[0] == q.values[q.head.version + 1]
  {
  }

  lemma NodesSnoc(nodes: seq<Addr>, first: nat, k: nat)
    requires first <= k < |nodes|
    ensures nodes[first..k + 1] == nodes[first..k] + [nodes[k]]
  {
  }

  /** With no call running and nothing queued, only the dummy is not freed. */
  lemma AllButDummyFreed(s: State)
    requires Good(s) && Quiescent(s) && Abs(s.q) == []
    ensures s.q.head.ptr in s.q.mem && s.q.head.ptr !in s.q.freed
    ensures s.q.freed + {s.q.head.ptr} == s.q.mem.Keys
  {
    assert InQueue(s.q, s.q.head.ptr);
    forall a | a in s.q.mem && a != s.q.head.ptr ensures a in s.q.freed {
      assert !Pending(s.threads, a) && !Claimed(s.threads, a);
    }
  }

  lemma UnwindEnd(q0: Shared, s: State, disposed: seq<Data>, released: seq<Addr>)
    requires Shape(s.q) && Unwound(q0, s.q, disposed, released) && Abs(s.q) == []
    ensures disposed == NonNull(Abs(q0)) && released + [s.q.head.ptr] == q0.nodes[q0.head.version..]
  {
    var first, k := q0.head.version, s.q.head.version;
    assert s.q.values[first + 1..k + 1] == Abs(q0);
    assert s.q.nodes[first..k] + [s.q.nodes[k]] == s.q.nodes[first..];
  }

  /** The dummy and the nodes behind it. */
  function OutstandingNodes(q: Shared): seq<Addr> {
    if q.head.version <= |q.nodes| then q.nodes[q.head.version..] else []
  }

  ghost predicate TearingDown(q0: Shared, s: State, t: Tid, disposed: seq<Data>, released: seq<Addr>) {
    Good(s) && Quiescent(s) && t < |s.threads| && Unwound(q0, s.q, disposed, released)
  }

  lemma TearingStarts(s: State, t: Tid)
    requires Good(s) && Quiescent(s) && t < |s.threads|
    ensures TearingDown(s.q, s, t, [], [])
  {
  }

  lemma TearingEnds(q0: Shared, s: State, t: Tid, disposed: seq<Data>, released: seq<Addr>)
    requires TearingDown(q0, s, t, disposed, released) && Abs(s.q) == []
    ensures disposed == NonNull(Abs(q0)) && released + [s.q.head.ptr] == OutstandingNodes(q0)
    ensures s.q.mem.Keys == q0.mem.Keys && s.q.freed + {s.q.head.ptr} == s.q.mem.Keys
    ensures s.q.head.ptr in s.q.mem && s.q.head.ptr !in s.q.freed
  {
    UnwindEnd(q0, s, disposed, released);
    AllButDummyFreed(s);
  }
}
