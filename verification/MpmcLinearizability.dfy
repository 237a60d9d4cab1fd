/** Linearizability of the Michael-Scott queue: every run is a run of an atomic FIFO queue, in which
    each call takes effect at one instant between its beginning and its return. */
module MpmcLinearizability {
  import opened VersionedPointers
  import opened MpmcModel
  import opened MpmcInvariant
  import opened MpmcSteps
  import opened MpmcRuns

  /** The atomic queue: Put appends, Take removes the oldest value, anything else changes nothing. */
  ghost predicate FifoStep(before: seq<Data>, e: Effect, after: seq<Data>) {
    match e
    case Silent => after == before
    case Put(_, v) => after == before + [v]
    case Take(_, v) => before != [] && before[0] == v && after == before[1..]
  }

  /** One step of the atomic queue, in which at most one DCAS succeeds. */
  ghost predicate FifoMove(q: Shared, m: Move) {
    Grows(q, m.q) && Wins(q) <= Wins(m.q) <= Wins(q) + 1 && FifoStep(Abs(q), m.effect, Abs(m.q))
  }

  lemma EnqueueFifo(q: Shared, th: Thread, t: Tid, now: nat)
    requires Shape(q) && EnqueuerOk(q, th) && (th.pc.EnqLink? ==> Private(q, th))
    ensures FifoMove(q, EnqueueMove(q, th, t, now))
  {
    if th.pc.EnqLink? && NextOf(q, th.tail.ptr) == th.next {
      LinkFifo(q, th, t, now);
    } else if th.pc.EnqHelp? || th.pc.EnqSwing? {
      EnqueueSwing(q, th, t, now);
      TailFifo(q, th.tail, VersionedPointer(if th.pc.EnqSwing? then th.node else th.next.ptr, th.tail.version + 1));
    }
  }

  lemma LinkFifo(q: Shared, th: Thread, t: Tid, now: nat)
    requires Shape(q) && EnqueuerOk(q, th) && th.pc.EnqLink? && Private(q, th) && NextOf(q, th.tail.ptr) == th.next
    ensures FifoMove(q, EnqueueMove(q, th, t, now))
  {
    LinkOk(q, th, t, now);
  }

  lemma TailFifo(q: Shared, cmp: VersionedPointer, swap: VersionedPointer)
    requires Shape(q) && OneFurther(q, cmp, swap)
    ensures var q' := DcasTail(q, cmp, swap);
      Grows(q, q') && Wins(q) <= Wins(q') <= Wins(q) + 1 && Abs(q') == Abs(q)
  {
    TailShape(q, cmp, swap);
  }

  lemma DequeueFifo(q: Shared, th: Thread, t: Tid, now: nat, junk: Data)
    requires Shape(q) && DequeuerOk(q, th)
    ensures FifoMove(q, DequeueMove(q, th, t, now, junk))
  {
    if th.pc.DeqHelp? {
      DequeueHelp(q, th, t, now, junk);
      TailFifo(q, th.tail, VersionedPointer(th.next.ptr, th.tail.version + 1));
    } else if th.pc.DeqSwing? && q.head == th.head {
      HeadFifo(q, th, t, now, junk);
    }
  }

  lemma HeadFifo(q: Shared, th: Thread, t: Tid, now: nat, junk: Data)
    requires Shape(q) && DequeuerOk(q, th) && th.pc.DeqSwing? && q.head == th.head
    ensures FifoMove(q, DequeueMove(q, th, t, now, junk))
  {
    HeadShape(q, th);
  }

  lemma EmptyFifo(q: Shared, th: Thread, now: nat)
    requires InEmpty(th.pc)
    ensures FifoMove(q, EmptyMove(q, th, now))
  {
  }

  lemma CallFifo(q: Shared, th: Thread, e: Event, now: nat)
    requires !e.Step?
    ensures FifoMove(q, CallMove(q, th, e, now))
  {
  }

  /** Every event is one step of the atomic queue, and at most one DCAS succeeds in it. */
  lemma MoveIsFifo(s: State, e: Event)
    requires Safe(s.q, s.threads) && Enabled(s, e)
    ensures FifoMove(s.q, MoveOf(s, e))
  {
    var th := s.threads[e.t];
    assert EnqueuerOk(s.q, th) && DequeuerOk(s.q, th);
    if !e.Step? {
      CallFifo(s.q, th, e, |s.log|);
    } else if InEnqueue(th.pc) {
      EnqueueFifo(s.q, th, e.t, |s.log|);
    } else if InEmpty(th.pc) {
      EmptyFifo(s.q, th, |s.log|);
    } else {
      DequeueFifo(s.q, th, e.t, |s.log|, e.junk);
    }
  }

  lemma GrowsKept(s: State, e: Event)
    requires Safe(s.q, s.threads) && Enabled(s, e)
    ensures var q' := MoveOf(s, e).q; Shape(q') && Grows(s.q, q') && Wins(q') <= Wins(s.q) + 1
  {
    SafeKept(s, e);
    MoveIsFifo(s, e);
  }

  lemma GrowthSwings(q: Shared, q': Shared)
    requires Shape(q) && Shape(q') && Grows(q, q') && Wins(q') <= Wins(q) + 1
    ensures Swing(q.head, q'.head) && Swing(q.tail, q'.tail)
  {
    assert q'.nodes[q.head.version] == q.head.ptr;
    assert q'.nodes[q.tail.version] == q.tail.ptr;
  }

  /** Every event swings head and tail by at most one version. */
  lemma CellsSwing(s: State, e: Event)
    requires Safe(s.q, s.threads) && Enabled(s, e)
    ensures Swing(s.q.head, Apply(s, e).q.head) && Swing(s.q.tail, Apply(s, e).q.tail)
  {
    GrowsKept(s, e);
    GrowthSwings(s.q, MoveOf(s, e).q);
  }

  /** The values of q->head and q->tail before the first and after every event of a run. */
  function Heads(s: State, es: seq<Event>): seq<VersionedPointer>
    requires Admissible(s, es)
    decreases |es|
  {
    [s.q.head] + if es == [] then [] else Heads(Apply(s, es[0]), es[1..])
  }

  function Tails(s: State, es: seq<Event>): seq<VersionedPointer>
    requires Admissible(s, es)
    decreases |es|
  {
    [s.q.tail] + if es == [] then [] else Tails(Apply(s, es[0]), es[1..])
  }

  lemma {:induction false} CellsCount(s: State, es: seq<Event>)
    requires Admissible(s, es)
    ensures |Heads(s, es)| == |Tails(s, es)| == |es| + 1
    decreases |es|
  {
    if es == [] {
    } else {
      CellsCount(Apply(s, es[0]), es[1..]);
    }
  }

  /** The first i events of a run, the first of them apart. */
  lemma RunFirst(s: State, es: seq<Event>, i: nat)
    requires 0 < i <= |es| && Admissible(s, es[..i])
    ensures Enabled(s, es[0]) && Admissible(Apply(s, es[0]), es[1..][..i - 1])
    ensures Exec(s, es[..i]) == Exec(Apply(s, es[0]), es[1..][..i - 1])
  {
    assert es[..i][0] == es[0] && es[..i][1..] == es[1..][..i - 1];
  }

  lemma {:induction false} CellsFollow(s: State, es: seq<Event>, i: nat)
    requires Admissible(s, es) && i <= |es| && Admissible(s, es[..i])
    ensures i < |Heads(s, es)| && Heads(s, es)[i] == Exec(s, es[..i]).q.head
    ensures i < |Tails(s, es)| && Tails(s, es)[i] == Exec(s, es[..i]).q.tail
    decreases i
  {
    CellsCount(s, es);
    if i == 0 {
      assert es[..0] == [];
    } else {
      RunFirst(s, es, i);
      CellsFollow(Apply(s, es[0]), es[1..], i - 1);
    }
  }

  /** Entry i is the cell after the first i events of the run. */
  lemma CellsAt(s: State, es: seq<Event>, i: nat)
    requires Admissible(s, es) && i <= |es|
    ensures Admissible(s, es[..i]) && i < |Heads(s, es)| && i < |Tails(s, es)|
    ensures Heads(s, es)[i] == Exec(s, es[..i]).q.head && Tails(s, es)[i] == Exec(s, es[..i]).q.tail
  {
    RunSplits(s, es, i);
    CellsFollow(s, es, i);
  }

  /** In every run head and tail have histories to which TwoWordRead applies. */
  lemma {:induction false} CellsHaveHistories(s: State, es: seq<Event>)
    requires Safe(s.q, s.threads) && Admissible(s, es)
    ensures CellHistory(Heads(s, es)) && CellHistory(Tails(s, es))
    decreases |es|
  {
    if es == [] {
    } else {
      CellsSwing(s, es[0]);
      SafeKept(s, es[0]);
      CellsHaveHistories(Apply(s, es[0]), es[1..]);
      HistoryLonger(s.q.head, Heads(Apply(s, es[0]), es[1..]));
      HistoryLonger(s.q.tail, Tails(Apply(s, es[0]), es[1..]));
    }
  }

  lemma HistoryLonger(first: VersionedPointer, h: seq<VersionedPointer>)
    requires h != [] && CellHistory(h) && Swing(first, h[0])
    ensures CellHistory([first] + h)
  {
    var h' := [first] + h;
    forall i | 0 <= i && i + 1 < |h'| ensures Swing(h'[i], h'[i + 1]) {
      if i > 0 { assert Swing(h[i - 1], h[i - 1 + 1]); }
    }
  }

  // ---- the instant at which a call takes effect -----------------------------------------------

  /** The call has changed the abstract queue. */
  predicate TookEffect(pc: Pc) {
    pc.EnqSwing? || pc.EnqCount? || pc.DeqCount? || pc.DeqFree?
  }

  /** The dequeuer has read the next word of the head. */
  predicate HasNext(pc: Pc) {
    pc.DeqNextVer? || pc.DeqCheckPtr? || pc.DeqCheckVer?
  }

  /** Thread t changed the abstract queue at no event from start to end, or at lin only. */
  ghost predicate OnlyAt(log: seq<Effect>, t: Tid, start: nat, end: nat, once: bool, lin: nat) {
    forall i :: start <= i < end && i < |log| && !log[i].Silent? && log[i].tid == t ==> once && i == lin
  }

  ghost predicate NonEmptyWithin(hist: seq<seq<Data>>, start: nat, end: nat) {
    exists m :: start < m <= end && m < |hist| && hist[m] != []
  }

  ghost predicate EffectIs(log: seq<Effect>, i: nat, e: Effect) {
    i < |log| && log[i] == e
  }

  ghost predicate EmptyAt(hist: seq<seq<Data>>, i: nat) {
    i < |hist| && hist[i] == []
  }

  ghost predicate ThreadPoint(s: State, t: Tid, th: Thread) {
    && th.start < |s.log|
    && OnlyAt(s.log, t, th.start, |s.log|, TookEffect(th.pc), th.lin)
    && (TookEffect(th.pc) ==> th.start < th.lin)
    && (TookEffect(th.pc) ==> EffectIs(s.log, th.lin, if InEnqueue(th.pc) then Put(t, th.data) else Take(t, th.data)))
    && (HasNext(th.pc) ==> th.start < th.lin < |s.log|)
    && (HasNext(th.pc) && th.head == s.q.head && th.next.ptr == NULL ==> EmptyAt(s.hist, th.lin))
    && (th.pc.EmpNextPtr? && NextOf(s.q, th.head.ptr).ptr != NULL ==> NonEmptyWithin(s.hist, th.start, |s.log|))
  }

  /** A completed call took effect, once and with its own argument or result, strictly inside its
      interval; one that found the queue empty did so at an instant when it was. */
  ghost predicate CallOk(log: seq<Effect>, hist: seq<seq<Data>>, c: Call) {
    && c.start < c.lin < c.end <= |log|
    && OnlyAt(log, c.tid, c.start, c.end, c.answer.Enqueued? || c.answer.Dequeued?, c.lin)
    && match c.answer
       case Enqueued(v) => EffectIs(log, c.lin, Put(c.tid, v))
       case Dequeued(v) => EffectIs(log, c.lin, Take(c.tid, v))
       case FoundEmpty => EmptyAt(hist, c.lin)
       case SaidEmpty(true) => EmptyAt(hist, c.lin)
       case SaidEmpty(false) => NonEmptyWithin(hist, c.start, c.end)
       case NotYet => false
  }

  /** hist is the history of an atomic queue that starts empty and meets log. */
  ghost predicate FifoHistory(log: seq<Effect>, hist: seq<seq<Data>>) {
    |hist| == |log| + 1 && hist[0] == []
    && forall i :: 0 <= i < |log| ==> FifoStep(hist[i], log[i], hist[i + 1])
  }

  /** The effect at event i belongs to a call: one that has returned, or the one its thread is in. */
  ghost predicate Owned(threads: seq<Thread>, calls: seq<Call>, t: Tid, i: nat) {
    || (t < |threads| && !threads[t].pc.Idle? && threads[t].start <= i)
    || (exists k :: 0 <= k < |calls| && calls[k].tid == t && calls[k].start <= i < calls[k].end)
  }

  ghost predicate AllOwned(s: State) {
    forall i :: 0 <= i < |s.log| && !s.log[i].Silent? ==> Owned(s.threads, s.calls, s.log[i].tid, i)
  }

  ghost predicate ThreadPoints(s: State) {
    forall t :: 0 <= t < |s.threads| && !s.threads[t].pc.Idle? ==> ThreadPoint(s, t, s.threads[t])
  }

  ghost predicate Linearized(s: State) {
    && FifoHistory(s.log, s.hist) && s.hist[|s.log|] == Abs(s.q)
    && (forall k :: 0 <= k < |s.calls| ==> CallOk(s.log, s.hist, s.calls[k]))
    && AllOwned(s)
  }

  // ---- every step keeps it -----------------------------------------------------------------------

  lemma HistoryAppend(log: seq<Effect>, hist: seq<seq<Data>>, effect: Effect, abs: seq<Data>)
    requires FifoHistory(log, hist) && FifoStep(hist[|log|], effect, abs)
    ensures FifoHistory(log + [effect], hist + [abs])
  {
    var log', hist' := log + [effect], hist + [abs];
    forall i | 0 <= i < |log'| ensures FifoStep(hist'[i], log'[i], hist'[i + 1]) {
      if i < |log| { assert FifoStep(hist[i], log[i], hist[i + 1]); }
    }
  }

  lemma HistoryKept(s: State, e: Event)
    requires Safe(s.q, s.threads) && Enabled(s, e) && FifoHistory(s.log, s.hist) && s.hist[|s.log|] == Abs(s.q)
    ensures var s' := Apply(s, e); FifoHistory(s'.log, s'.hist) && s'.hist[|s'.log|] == Abs(s'.q)
  {
    var m := MoveOf(s, e);
    assert FifoStep(Abs(s.q), m.effect, Abs(m.q)) by { MoveIsFifo(s, e); }
    HistoryAppend(s.log, s.hist, m.effect, Abs(m.q));
  }

  /** A block that was the dummy, is not reused and has no successor is the last node. */
  lemma LastMeansEmpty(q: Shared, p: Addr)
    requires Shape(q) && WasHead(q, p) && NextOf(q, p).ptr == NULL
    ensures q.head.version + 1 == |q.nodes| && q.head.ptr == p && Abs(q) == []
  {
    var i :| 0 <= i <= q.head.version && Names(q, p, i);
    assert i + 1 == |q.nodes|;
  }

  /** When a node that was the head gets its successor, the queue becomes non-empty. */
  lemma GainsSuccessor(q: Shared, q': Shared, p: Addr)
    requires Shape(q) && Shape(q') && Grows(q, q') && Wins(q') <= Wins(q) + 1
    requires WasHead(q, p) && NextOf(q, p).ptr == NULL && NextOf(q', p).ptr != NULL
    ensures Abs(q') != []
  {
    LastMeansEmpty(q, p);
    assert q'.nodes[q.head.version] == p;
    if |q'.nodes| == |q.nodes| { NextOfNode(q', q.head.version); }
  }

  /** s' follows s by one event. */
  ghost predicate Follows(s: State, s': State, effect: Effect) {
    s'.log == s.log + [effect] && s'.hist == s.hist + [Abs(s'.q)] && |s.hist| == |s.log| + 1
  }

  lemma NonEmptyStays(s: State, s': State, p: Addr, start: nat)
    requires Shape(s.q) && Shape(s'.q) && Grows(s.q, s'.q) && Wins(s'.q) <= Wins(s.q) + 1
    requires |s.hist| == |s.log| + 1 && |s'.log| == |s.log| + 1 && s'.hist == s.hist + [Abs(s'.q)] && start < |s.log|
    requires NextOf(s'.q, p).ptr != NULL && (NextOf(s.q, p).ptr == NULL ==> WasHead(s.q, p))
    requires NextOf(s.q, p).ptr != NULL ==> NonEmptyWithin(s.hist, start, |s.log|)
    ensures NonEmptyWithin(s'.hist, start, |s'.log|)
  {
    if NextOf(s.q, p).ptr == NULL {
      GainsSuccessor(s.q, s'.q, p);
      assert s'.hist[|s'.log|] != [];
    } else {
      var m :| start < m <= |s.log| && m < |s.hist| && s.hist[m] != [];
      assert s'.hist[m] != [];
    }
  }

  /** A thread that does not move keeps its instant. */
  lemma OthersPoint(s: State, s': State, effect: Effect, t: Tid, th: Thread)
    requires ThreadPoint(s, t, th) && Follows(s, s', effect) && (effect.Silent? || effect.tid != t)
    requires Shape(s.q) && Shape(s'.q) && Grows(s.q, s'.q) && Wins(s'.q) <= Wins(s.q) + 1 && DequeuerOk(s.q, th)
    ensures ThreadPoint(s', t, th)
  {
    CellsKeep(s.q, s'.q);
    if th.pc.EmpNextPtr? && NextOf(s'.q, th.head.ptr).ptr != NULL {
      NonEmptyStays(s, s', th.head.ptr, th.start);
    }
  }

  /** The thread that moves: a step of mpmc_enqueue. */
  lemma EnqueuePoint(s: State, s': State, t: Tid, th: Thread)
    requires ThreadPoint(s, t, th) && InEnqueue(th.pc)
    requires var m := EnqueueMove(s.q, th, t, |s.log|); Follows(s, s', m.effect)
    ensures var m := EnqueueMove(s.q, th, t, |s.log|);
      if m.answer == NotYet then ThreadPoint(s', t, m.th)
      else CallOk(s'.log, s'.hist, Call(t, m.answer, m.th.start, m.th.lin, |s'.log|))
  {
  }

  /** A load or comparison of mpmc_dequeue; line 189's is the instant at which it may find the queue empty. */
  lemma DequeueReadPoint(s: State, s': State, t: Tid, th: Thread, junk: Data)
    requires ThreadPoint(s, t, th) && DequeuerOk(s.q, th)
    requires DequeueLoad(th.pc) || th.pc.DeqCheckPtr? || th.pc.DeqCheckVer?
    requires th.pc.DeqNextPtr? && th.head == s.q.head && NextOf(s.q, th.head.ptr).ptr == NULL ==>
      EmptyAt(s.hist, |s.log|)
    requires Follows(s, s', Silent) && s'.q == s.q
    ensures var m := DequeueMove(s.q, th, t, |s.log|, junk);
      if m.answer == NotYet then ThreadPoint(s', t, m.th)
      else CallOk(s'.log, s'.hist, Call(t, m.answer, m.th.start, m.th.lin, |s'.log|))
  {
  }

  lemma DequeueWritePoint(s: State, s': State, t: Tid, th: Thread, junk: Data)
    requires ThreadPoint(s, t, th)
    requires th.pc.DeqHelp? || th.pc.DeqData? || th.pc.DeqSwing? || th.pc.DeqCount? || th.pc.DeqFree?
    requires var m := DequeueMove(s.q, th, t, |s.log|, junk); Follows(s, s', m.effect)
    ensures var m := DequeueMove(s.q, th, t, |s.log|, junk);
      if m.answer == NotYet then ThreadPoint(s', t, m.th)
      else CallOk(s'.log, s'.hist, Call(t, m.answer, m.th.start, m.th.lin, |s'.log|))
  {
  }

  lemma EmptyPoint(s: State, s': State, t: Tid, th: Thread)
    requires Shape(s.q) && s'.q == s.q && EmptyMove(s.q, th, |s.log|).effect.Silent?
    requires s.hist != [] && s.hist[|s.hist| - 1] == Abs(s.q)
    requires th.pc.EmpNextPtr? && NextOf(s.q, th.head.ptr).ptr == NULL ==> WasHead(s.q, th.head.ptr)
    requires ThreadPoint(s, t, th) && InEmpty(th.pc) && Follows(s, s', Silent)
    ensures var m := EmptyMove(s.q, th, |s.log|);
      if m.answer == NotYet then ThreadPoint(s', t, m.th)
      else CallOk(s'.log, s'.hist, Call(t, m.answer, m.th.start, m.th.lin, |s'.log|))
  {
    if th.pc.EmpHeadPtr? {
      NextOfNode(s.q, s.q.head.version);
      if NextOf(s.q, s.q.head.ptr).ptr != NULL { assert s'.hist[|s'.log|] != []; }
    } else if NextOf(s.q, th.head.ptr).ptr == NULL {
      LastMeansEmpty(s.q, th.head.ptr);
    } else {
      var m :| th.start < m <= |s.log| && m < |s.hist| && s.hist[m] != [];
      assert s'.hist[m] != [];
    }
  }

  /** What the point of the mover's call is after its move. */
  ghost predicate PointAfter(s': State, t: Tid, m: Move) {
    if m.answer == NotYet then m.th.pc.Idle? || ThreadPoint(s', t, m.th)
    else CallOk(s'.log, s'.hist, Call(t, m.answer, m.th.start, m.th.lin, |s'.log|))
  }

  lemma StepPoint(s: State, s': State, t: Tid, th: Thread, junk: Data)
    requires Shape(s.q) && DequeuerOk(s.q, th) && ThreadPoint(s, t, th) && !th.pc.Idle?
    requires s.hist != [] && s.hist[|s.hist| - 1] == Abs(s.q)
    requires var m := StepMove(s.q, th, t, |s.log|, junk); s'.q == m.q && Follows(s, s', m.effect)
    ensures PointAfter(s', t, StepMove(s.q, th, t, |s.log|, junk))
  {
    if InEnqueue(th.pc) {
      EnqueuePoint(s, s', t, th);
    } else if InEmpty(th.pc) {
      EmptyPoint(s, s', t, th);
    } else if DequeueLoad(th.pc) || th.pc.DeqCheckPtr? || th.pc.DeqCheckVer? {
      if th.pc.DeqNextPtr? && th.head == s.q.head && NextOf(s.q, th.head.ptr).ptr == NULL { HeadWasEmpty(s.q, th); }
      DequeueReadPoint(s, s', t, th, junk);
    } else {
      DequeueWritePoint(s, s', t, th, junk);
    }
  }

  lemma CallPoint(s: State, s': State, e: Event, th: Thread)
    requires !e.Step? && th.pc.Idle? && Follows(s, s', Silent)
    ensures PointAfter(s', e.t, CallMove(s.q, th, e, |s.log|))
  {
  }

  /** The thread that moves. */
  lemma MoverPoint(s: State, e: Event)
    requires Safe(s.q, s.threads) && Enabled(s, e) && Linearized(s) && ThreadPoints(s)
    ensures PointAfter(Apply(s, e), e.t, MoveOf(s, e))
  {
    var th, s' := s.threads[e.t], Apply(s, e);
    assert s.hist != [] && s.hist[|s.hist| - 1] == Abs(s.q);
    if e.Step? {
      assert Shape(s.q) && DequeuerOk(s.q, th);
      assert ThreadPoint(s, e.t, th);
      StepPoint(s, s', e.t, th, e.junk);
    } else {
      CallPoint(s, s', e, th);
    }
  }

  /** Line 189: a NULL read from the next word of the current head means the queue is empty at that instant. */
  lemma HeadWasEmpty(q: Shared, th: Thread)
    requires Shape(q) && th.head == q.head && NextOf(q, th.head.ptr).ptr == NULL
    ensures Abs(q) == []
  {
    NextOfNode(q, q.head.version);
  }

  /** Bookkeeping: only the mover's effect is recorded, a call keeps its beginning, and it is
      recorded exactly when it returns. */
  lemma MoveFacts(s: State, e: Event)
    requires Enabled(s, e)
    ensures var th, m := s.threads[e.t], MoveOf(s, e);
      && (m.effect.Silent? || (m.effect.tid == e.t && e.Step?))
      && (e.Step? ==> m.th.start == th.start)
      && (if e.Overwrite? then m.th == th && m.answer == NotYet else m.answer == NotYet <==> !m.th.pc.Idle?)
  {
  }

  lemma CallStable(log: seq<Effect>, hist: seq<seq<Data>>, effect: Effect, abs: seq<Data>, c: Call)
    requires CallOk(log, hist, c)
    ensures CallOk(log + [effect], hist + [abs], c)
  {
    if c.answer == SaidEmpty(false) {
      var m :| c.start < m <= c.end && m < |hist| && hist[m] != [];
      assert (hist + [abs])[m] != [];
    }
  }

  lemma CallsKept(s: State, e: Event)
    requires Safe(s.q, s.threads) && Enabled(s, e) && Linearized(s) && ThreadPoints(s)
    ensures var s' := Apply(s, e); forall k :: 0 <= k < |s'.calls| ==> CallOk(s'.log, s'.hist, s'.calls[k])
  {
    var s', m := Apply(s, e), MoveOf(s, e);
    MoverPoint(s, e);
    forall k | 0 <= k < |s'.calls| ensures CallOk(s'.log, s'.hist, s'.calls[k]) {
      if k < |s.calls| { CallStable(s.log, s.hist, m.effect, Abs(m.q), s.calls[k]); }
    }
  }

  lemma OtherPointKept(s: State, s': State, e: Event, t: Tid)
    requires Safe(s.q, s.threads) && Enabled(s, e) && |s.hist| == |s.log| + 1 && s' == Apply(s, e)
    requires t < |s.threads| && t != e.t && ThreadPoint(s, t, s.threads[t])
    ensures ThreadPoint(s', t, s.threads[t])
  {
    var m, th := MoveOf(s, e), s.threads[t];
    assert m.effect.Silent? || m.effect.tid != t by { MoveFacts(s, e); }
    assert DequeuerOk(s.q, th);
    GrowsKept(s, e);
    OthersPoint(s, s', m.effect, t, th);
  }

  lemma PointsKept(s: State, e: Event)
    requires Safe(s.q, s.threads) && Enabled(s, e) && Linearized(s) && ThreadPoints(s)
    ensures ThreadPoints(Apply(s, e))
  {
    var s' := Apply(s, e);
    forall t | 0 <= t < |s'.threads| && !s'.threads[t].pc.Idle? ensures ThreadPoint(s', t, s'.threads[t]) {
      if t == e.t {
        MoverPoint(s, e);
        MoveFacts(s, e);
      } else {
        OtherPointKept(s, s', e, t);
      }
    }
  }

  lemma OwnersKept(s: State, e: Event)
    requires Enabled(s, e) && AllOwned(s)
    requires forall k :: 0 <= k < |s.calls| ==> s.calls[k].end <= |s.log|
    requires !MoveOf(s, e).effect.Silent? ==> s.threads[e.t].start <= |s.log| && !MoveOf(s, e).th.pc.Idle?
    ensures AllOwned(Apply(s, e))
  {
    var s', m := Apply(s, e), MoveOf(s, e);
    MoveFacts(s, e);
    forall i | 0 <= i < |s'.log| && !s'.log[i].Silent? ensures Owned(s'.threads, s'.calls, s'.log[i].tid, i) {
      if i < |s.log| {
        var t := s.log[i].tid;
        assert Owned(s.threads, s.calls, t, i);
        if t < |s.threads| && !s.threads[t].pc.Idle? && s.threads[t].start <= i {
          if t == e.t && m.th.pc.Idle? {
            var k := |s.calls|;
            assert s'.calls[k].tid == t && s'.calls[k].start <= i < s'.calls[k].end;
          }
        } else {
          var k :| 0 <= k < |s.calls| && s.calls[k].tid == t && s.calls[k].start <= i < s.calls[k].end;
          assert s'.calls[k].tid == t && s'.calls[k].start <= i < s'.calls[k].end;
        }
      }
    }
  }

  lemma EffectInCall(s: State, e: Event)
    requires Enabled(s, e) && ThreadPoints(s) && !MoveOf(s, e).effect.Silent?
    ensures s.threads[e.t].start <= |s.log| && !MoveOf(s, e).th.pc.Idle?
  {
    assert e.Step? && ThreadPoint(s, e.t, s.threads[e.t]);
  }

  lemma LinearizedKept(s: State, e: Event)
    requires Safe(s.q, s.threads) && Enabled(s, e) && Linearized(s) && ThreadPoints(s)
    ensures Linearized(Apply(s, e)) && ThreadPoints(Apply(s, e))
  {
    HistoryKept(s, e);
    CallsKept(s, e);
    PointsKept(s, e);
    assert forall k :: 0 <= k < |s.calls| ==> CallOk(s.log, s.hist, s.calls[k]);
    if !MoveOf(s, e).effect.Silent? { EffectInCall(s, e); }
    OwnersKept(s, e);
  }

  lemma {:induction false} LinearizedAlways(s: State, es: seq<Event>)
    requires Safe(s.q, s.threads) && Linearized(s) && ThreadPoints(s) && Admissible(s, es)
    ensures Linearized(Exec(s, es)) && ThreadPoints(Exec(s, es)) && Safe(Exec(s, es).q, Exec(s, es).threads)
    decreases |es|
  {
    if es == [] {
    } else {
      SafeKept(s, es[0]);
      LinearizedKept(s, es[0]);
      LinearizedAlways(Apply(s, es[0]), es[1..]);
    }
  }

  /** Linearizability (mpmc_queue.h:119-217): for any number of threads and any schedule. */
  lemma Linearizable(n: nat, dummy: Addr, garbage: Data, es: seq<Event>)
    requires dummy != NULL && Admissible(Init(n, dummy, garbage), es)
    ensures Linearized(Exec(Init(n, dummy, garbage), es))
    ensures Answered(es, Exec(Init(n, dummy, garbage), es))
  {
    InitSafe(n, dummy, garbage);
    LinearizedAlways(Init(n, dummy, garbage), es);
    AnsweredAlways([], Init(n, dummy, garbage), es);
    assert [] + es == es;
  }

  // ---- the answers are the callers' ------------------------------------------------------------------

  /** A thread inside a call is in the one it began at event th.start, with that call's argument. */
  ghost predicate Began(es: seq<Event>, t: Tid, th: Thread) {
    th.start < |es| && es[th.start].t == t && !th.pc.Idle? &&
    match es[th.start]
    case CallEnqueue(_, value, _) => InEnqueue(th.pc) && th.data == value
    case CallDequeue(_) => !InEnqueue(th.pc) && !InEmpty(th.pc)
    case CallEmpty(_) => InEmpty(th.pc)
    case _ => false
  }

  /** A completed call answers the event that began it, and returned with its thread's own step. */
  ghost predicate Answers(es: seq<Event>, c: Call) {
    && c.start < c.end <= |es| && es[c.start].t == c.tid
    && es[c.end - 1].Step? && es[c.end - 1].t == c.tid
    && match es[c.start]
       case CallEnqueue(_, value, _) => c.answer == Enqueued(value)
       case CallDequeue(_) => c.answer.Dequeued? || c.answer.FoundEmpty?
       case CallEmpty(_) => c.answer.SaidEmpty?
       case _ => false
  }

  /** The call that event i began is still running, or it is on record. */
  ghost predicate Recorded(s: State, t: Tid, i: nat) {
    || (t < |s.threads| && !s.threads[t].pc.Idle? && s.threads[t].start == i)
    || (exists k :: 0 <= k < |s.calls| && s.calls[k].tid == t && s.calls[k].start == i)
  }

  ghost predicate Answered(es: seq<Event>, s: State) {
    && |s.log| == |es|
    && (forall i :: 0 <= i < |es| && Begins(es[i]) ==> Recorded(s, es[i].t, i))
    && (forall t :: 0 <= t < |s.threads| && !s.threads[t].pc.Idle? ==> Began(es, t, s.threads[t]))
    && (forall k :: 0 <= k < |s.calls| ==> Answers(es, s.calls[k]))
  }

  lemma MoverAnswered(es: seq<Event>, s: State, e: Event)
    requires Answered(es, s) && Enabled(s, e)
    ensures var m := MoveOf(s, e);
      if m.answer == NotYet then m.th.pc.Idle? || Began(es + [e], e.t, m.th)
      else Answers(es + [e], Call(e.t, m.answer, m.th.start, m.th.lin, |es| + 1))
  {
    if e.Step? { assert Began(es, e.t, s.threads[e.t]); }
  }

  lemma RecordKept(s: State, e: Event, t: Tid, i: nat)
    requires Enabled(s, e) && Recorded(s, t, i)
    ensures Recorded(Apply(s, e), t, i)
  {
    var s', m := Apply(s, e), MoveOf(s, e);
    MoveFacts(s, e);
    if t < |s.threads| && !s.threads[t].pc.Idle? && s.threads[t].start == i {
      if t == e.t && m.th.pc.Idle? {
        assert s'.calls[|s.calls|].tid == t && s'.calls[|s.calls|].start == i;
      }
    } else {
      var k :| 0 <= k < |s.calls| && s.calls[k].tid == t && s.calls[k].start == i;
      assert s'.calls[k] == s.calls[k];
    }
  }

  lemma CallIsRecorded(s: State, e: Event)
    requires Enabled(s, e) && Begins(e)
    ensures Recorded(Apply(s, e), e.t, |s.log|)
  {
  }

  lemma RecordsKept(es: seq<Event>, s: State, e: Event)
    requires |s.log| == |es| && Enabled(s, e)
    requires forall i :: 0 <= i < |es| && Begins(es[i]) ==> Recorded(s, es[i].t, i)
    ensures var es' := es + [e]; forall i :: 0 <= i < |es'| && Begins(es'[i]) ==> Recorded(Apply(s, e), es'[i].t, i)
  {
    var es' := es + [e];
    forall i | 0 <= i < |es'| && Begins(es'[i]) ensures Recorded(Apply(s, e), es'[i].t, i) {
      if i < |es| {
        RecordKept(s, e, es[i].t, i);
      } else {
        CallIsRecorded(s, e);
      }
    }
  }

  lemma AnsweredKept(es: seq<Event>, s: State, e: Event)
    requires Answered(es, s) && Enabled(s, e)
    ensures Answered(es + [e], Apply(s, e))
  {
    var s', es' := Apply(s, e), es + [e];
    MoverAnswered(es, s, e);
    MoveFacts(s, e);
    RecordsKept(es, s, e);
    forall k | 0 <= k < |s'.calls| ensures Answers(es', s'.calls[k]) {
      if k < |s.calls| { assert Answers(es, s.calls[k]); }
    }
    forall t | 0 <= t < |s'.threads| && !s'.threads[t].pc.Idle? ensures Began(es', t, s'.threads[t]) {
      if t != e.t { assert Began(es, t, s.threads[t]); }
    }
  }

  lemma MoveOver(past: seq<Event>, es: seq<Event>) returns (past': seq<Event>)
    requires es != []
    ensures past' == past + [es[0]] && past' + es[1..] == past + es
  {
    past' := past + [es[0]];
  }

  lemma AnsweredNext(past: seq<Event>, s: State, es: seq<Event>) returns (past': seq<Event>, s': State)
    requires es != [] && Answered(past, s) && Admissible(s, es)
    ensures Answered(past', s') && Admissible(s', es[1..]) && Exec(s, es) == Exec(s', es[1..])
    ensures past' + es[1..] == past + es
  {
    AnsweredKept(past, s, es[0]);
    s' := Apply(s, es[0]);
    past' := MoveOver(past, es);
  }

  lemma AnsweredNow(past: seq<Event>, s: State)
    requires Answered(past, s)
    ensures Answered(past + [], Exec(s, []))
  {
    assert past + [] == past;
  }

  lemma {:induction false} AnsweredAlways(past: seq<Event>, s: State, es: seq<Event>)
    requires Answered(past, s) && Admissible(s, es)
    ensures Answered(past + es, Exec(s, es))
    decreases |es|
  {
    if es == [] {
      AnsweredNow(past, s);
    } else {
      var past', s' := AnsweredNext(past, s, es);
      AnsweredAlways(past', s', es[1..]);
    }
  }

  ghost predicate HistoryEnds(s: State) {
    |s.hist| == |s.log| + 1 && s.hist[|s.log|] == Abs(s.q)
  }

  lemma {:induction false} HistoryGrows(s: State, es: seq<Event>)
    requires Admissible(s, es) && HistoryEnds(s)
    ensures HistoryFrom(s, Exec(s, es), |es|)
    decreases |es|
  {
    if es == [] {
    } else {
      HistoryGrows(Apply(s, es[0]), es[1..]);
    }
  }

  ghost predicate HistoryFrom(s: State, s': State, n: nat) {
    HistoryEnds(s') && s.hist <= s'.hist && |s'.log| == |s.log| + n
  }

  lemma HistoryBetween(s: State, mid: State, end: State, i: nat, n: nat)
    requires HistoryFrom(s, mid, i) && HistoryFrom(mid, end, n) && HistoryEnds(s)
    ensures |end.hist| == |s.hist| + i + n && end.hist[|s.log| + i] == Abs(mid.q)
  {
  }

  /** hist is no invention: its entry i is the abstract queue after the first i events of the run. */
  lemma HistoryIsTheTrace(s: State, es: seq<Event>, i: nat)
    requires Admissible(s, es) && i <= |es| && HistoryEnds(s)
    ensures Admissible(s, es[..i]) && |Exec(s, es).hist| == |s.hist| + |es|
    ensures Exec(s, es).hist[|s.log| + i] == Abs(Exec(s, es[..i]).q)
  {
    RunSplits(s, es, i);
    var mid, late := Exec(s, es[..i]), es[i..];
    HistoryGrows(s, es[..i]);
    HistoryGrows(mid, late);
    HistoryBetween(s, mid, Exec(mid, late), i, |late|);
  }
}
