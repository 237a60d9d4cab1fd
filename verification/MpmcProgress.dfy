/** Lock-freedom of the Michael-Scott queue as a bound, and termination of a thread left alone. */
module MpmcProgress {
  import opened VersionedPointers
  import opened MpmcModel
  import opened MpmcInvariant
  import opened MpmcSteps
  import opened MpmcRuns
  import opened MpmcLinearizability

  // ---- what a run shows ---------------------------------------------------------------------------

  /** The step ends a loop pass that failed: the thread is back at the first load. */
  predicate GoesRound(s: State, e: Event)
    requires e.t < |s.threads|
  {
    e.Step? && (Apply(s, e).threads[e.t].pc.EnqTailPtr? || Apply(s, e).threads[e.t].pc.DeqHeadPtr?)
  }

  /** The loop passes of thread t that fail in the run. */
  function Rounds(s: State, es: seq<Event>, t: Tid): nat
    requires Admissible(s, es)
    decreases |es|
  {
    if es == [] then 0
    else (if es[0].t == t && GoesRound(s, es[0]) then 1 else 0) + Rounds(Apply(s, es[0]), es[1..], t)
  }

  /** The step is a DCAS that finds what it expects: a link, or a swing of the tail or of the head. */
  predicate Succeeds(s: State, e: Event)
    requires e.t < |s.threads|
  {
    var th := s.threads[e.t];
    e.Step? &&
    ((th.pc.EnqLink? && NextOf(s.q, th.tail.ptr) == th.next)
     || ((th.pc.EnqHelp? || th.pc.EnqSwing? || th.pc.DeqHelp?) && s.q.tail == th.tail)
     || (th.pc.DeqSwing? && s.q.head == th.head))
  }

  /** The DCAS instructions that succeed in the run, whoever executes them. */
  function Successes(s: State, es: seq<Event>): nat
    requires Admissible(s, es)
    decreases |es|
  {
    if es == [] then 0
    else (if Succeeds(s, es[0]) then 1 else 0) + Successes(Apply(s, es[0]), es[1..])
  }

  lemma OneRound(s: State, e: Event)
    requires Enabled(s, e)
    ensures Apply(s, e).threads[e.t].fails == s.threads[e.t].fails + if GoesRound(s, e) then 1 else 0
  {
    var m := MoveOf(s, e);
    assert Apply(s, e).threads[e.t] == m.th;
    if e.Step? {
      RoundMove(s.q, s.threads[e.t], e.t, |s.log|, e.junk);
    }
  }

  lemma RoundMove(q: Shared, th: Thread, t: Tid, now: nat, junk: Data)
    requires !th.pc.Idle?
    ensures var m := StepMove(q, th, t, now, junk);
      m.th.fails == th.fails + if m.th.pc.EnqTailPtr? || m.th.pc.DeqHeadPtr? then 1 else 0
  {
  }

  /** The bookkeeping field fails counts the failed passes. */
  lemma {:induction false} FailsAreRounds(s: State, es: seq<Event>, t: Tid)
    requires Admissible(s, es) && t < |s.threads|
    ensures t < |Exec(s, es).threads|
    ensures Exec(s, es).threads[t].fails == s.threads[t].fails + Rounds(s, es, t)
    decreases |es|
  {
    if es == [] {
    } else {
      OneRound(s, es[0]);
      assert t != es[0].t ==> Apply(s, es[0]).threads[t] == s.threads[t];
      FailsAreRounds(Apply(s, es[0]), es[1..], t);
    }
  }

  lemma {:induction false} ThreadsStay(s: State, es: seq<Event>)
    requires Admissible(s, es)
    ensures |Exec(s, es).threads| == |s.threads|
    decreases |es|
  {
    if es == [] {
    } else {
      ThreadsStay(Apply(s, es[0]), es[1..]);
    }
  }

  lemma OneSuccess(s: State, e: Event)
    requires Enabled(s, e)
    ensures Wins(MoveOf(s, e).q) == Wins(s.q) + if Succeeds(s, e) then 1 else 0
  {
  }

  lemma {:induction false} WinsAreSuccesses(s: State, es: seq<Event>)
    requires Admissible(s, es)
    ensures Wins(Exec(s, es).q) == Wins(s.q) + Successes(s, es)
    decreases |es|
  {
    if es == [] {
    } else {
      OneSuccess(s, es[0]);
      WinsAreSuccesses(Apply(s, es[0]), es[1..]);
    }
  }

  /** A pass begins with the call, and mark is the number of successes until then. */
  lemma BeginMarks(s: State, e: Event)
    requires Enabled(s, e) && Begins(e)
    ensures Apply(s, e).threads[e.t].mark == Wins(Apply(s, e).q)
  {
  }

  // ---- a pass that fails overlaps a success -----------------------------------------------------

  /** If no DCAS has succeeded since the pass began, everything it has read is current. */
  ghost predicate EnqueuerFresh(q: Shared, th: Thread) {
    match th.pc
    case EnqTailVer => th.tail.ptr == q.tail.ptr
    case EnqNextPtr => th.tail == q.tail
    case EnqNextVer => th.tail == q.tail && th.next.ptr == NextOf(q, th.tail.ptr).ptr
    case EnqCheckPtr | EnqCheckVer | EnqLink | EnqHelp => th.tail == q.tail && th.next == NextOf(q, th.tail.ptr)
    case _ => true
  }

  ghost predicate DequeuerFresh(q: Shared, th: Thread) {
    match th.pc
    case DeqHeadVer => th.head.ptr == q.head.ptr
    case DeqTailPtr => th.head == q.head
    case DeqTailVer => th.head == q.head && th.tail.ptr == q.tail.ptr
    case DeqNextPtr => th.head == q.head && th.tail == q.tail
    case DeqNextVer => th.head == q.head && th.tail == q.tail && th.next.ptr == NextOf(q, th.head.ptr).ptr
    case DeqCheckPtr | DeqCheckVer | DeqHelp | DeqData | DeqSwing =>
      th.head == q.head && th.tail == q.tail && th.next == NextOf(q, th.head.ptr)
    case _ => true
  }

  ghost predicate Fresh(q: Shared, th: Thread) {
    Wins(q) == th.mark ==> EnqueuerFresh(q, th) && DequeuerFresh(q, th)
  }

  ghost predicate Bounded(q: Shared, th: Thread) {
    th.fails <= th.mark <= Wins(q) && Fresh(q, th)
  }

  /** While no DCAS succeeds, nothing that matters to a pass changes. */
  ghost predicate Quiet(q: Shared, q': Shared) {
    && q'.head == q.head && q'.tail == q.tail
    && NextOf(q', q.head.ptr) == NextOf(q, q.head.ptr) && NextOf(q', q.tail.ptr) == NextOf(q, q.tail.ptr)
  }

  lemma QuietMove(s: State, e: Event)
    requires Safe(s.q, s.threads) && Enabled(s, e) && Wins(MoveOf(s, e).q) == Wins(s.q)
    ensures Quiet(s.q, MoveOf(s, e).q)
  {
    SafeKept(s, e);
    GrowsKept(s, e);
    SameWins(s.q, MoveOf(s, e).q);
  }

  lemma SameWins(q: Shared, q': Shared)
    requires Shape(q) && Shape(q') && Grows(q, q') && Wins(q) == Wins(q')
    ensures Quiet(q, q')
  {
    NextOfNode(q, q.head.version);
    NextOfNode(q', q.head.version);
    NextOfNode(q, q.tail.version);
    NextOfNode(q', q.tail.version);
  }

  lemma OthersBounded(q: Shared, q': Shared, th: Thread)
    requires Bounded(q, th) && Wins(q) <= Wins(q') && (Wins(q) == Wins(q') ==> Quiet(q, q'))
    ensures Bounded(q', th)
  {
  }

  /** A failed pass of mpmc_enqueue saw at least one success: the mark rises with the failures. */
  lemma EnqueueBounded(q: Shared, th: Thread, t: Tid, now: nat)
    requires Shape(q) && EnqueuerOk(q, th) && Bounded(q, th) && InEnqueue(th.pc)
    ensures var m := EnqueueMove(q, th, t, now);
      && m.th.fails - th.fails <= m.th.mark - th.mark
      && (m.th.pc.EnqTailPtr? ==> m.th.fails == th.fails + 1 && th.mark < m.th.mark == Wins(m.q))
      && Bounded(m.q, m.th)
  {
    if th.pc.EnqHelp? || th.pc.EnqSwing? { EnqueueSwing(q, th, t, now); }
  }

  lemma DequeueBounded(q: Shared, th: Thread, t: Tid, now: nat, junk: Data)
    requires Shape(q) && DequeuerOk(q, th) && Bounded(q, th) && !th.pc.Idle? && !InEnqueue(th.pc) && !InEmpty(th.pc)
    ensures var m := DequeueMove(q, th, t, now, junk);
      && m.th.fails - th.fails <= m.th.mark - th.mark
      && (m.th.pc.DeqHeadPtr? ==> m.th.fails == th.fails + 1 && th.mark < m.th.mark == Wins(m.q))
      && Bounded(m.q, m.th)
  {
  }

  ghost predicate AllBounded(s: State) {
    forall t :: 0 <= t < |s.threads| ==> Bounded(s.q, s.threads[t])
  }

  lemma MoverBounded(s: State, e: Event)
    requires Safe(s.q, s.threads) && Enabled(s, e) && Bounded(s.q, s.threads[e.t])
    ensures var th, m := s.threads[e.t], MoveOf(s, e);
      Bounded(m.q, m.th) && m.th.fails - th.fails <= m.th.mark - th.mark
  {
    var th := s.threads[e.t];
    assert EnqueuerOk(s.q, th) && DequeuerOk(s.q, th);
    if e.Step? {
      if InEnqueue(th.pc) {
        EnqueueBounded(s.q, th, e.t, |s.log|);
      } else if !InEmpty(th.pc) {
        DequeueBounded(s.q, th, e.t, |s.log|, e.junk);
      }
    }
  }

  lemma BoundedKept(s: State, e: Event)
    requires Safe(s.q, s.threads) && Enabled(s, e) && AllBounded(s)
    ensures AllBounded(Apply(s, e))
    ensures forall t :: 0 <= t < |s.threads| ==>
      Apply(s, e).threads[t].fails - s.threads[t].fails <= Apply(s, e).threads[t].mark - s.threads[t].mark
  {
    var s' := Apply(s, e);
    MoverBounded(s, e);
    assert Wins(s.q) <= Wins(s'.q) by { MoveIsFifo(s, e); }
    if Wins(s'.q) == Wins(s.q) { QuietMove(s, e); }
    forall t | 0 <= t < |s.threads| && t != e.t ensures Bounded(s'.q, s'.threads[t]) {
      OthersBounded(s.q, s'.q, s.threads[t]);
    }
  }

  /** Along any run, a thread fails no more often than its mark rises. */
  lemma {:induction false} FailuresAreSuccesses(s: State, es: seq<Event>, t: Tid)
    requires Safe(s.q, s.threads) && AllBounded(s) && Admissible(s, es) && t < |s.threads|
    ensures var s' := Exec(s, es);
      && Safe(s'.q, s'.threads) && AllBounded(s') && |s'.threads| == |s.threads|
      && s'.threads[t].fails - s.threads[t].fails <= s'.threads[t].mark - s.threads[t].mark
    decreases |es|
  {
    if es == [] {
    } else {
      SafeKept(s, es[0]);
      BoundedKept(s, es[0]);
      FailuresAreSuccesses(Apply(s, es[0]), es[1..], t);
    }
  }

  ghost predicate Reachable(s: State, n: nat, dummy: Addr, garbage: Data, es: seq<Event>) {
    dummy != NULL && Admissible(Init(n, dummy, garbage), es) && s == Exec(Init(n, dummy, garbage), es)
  }

  lemma ReachableFacts(s: State, n: nat, dummy: Addr, garbage: Data, es: seq<Event>)
    requires Reachable(s, n, dummy, garbage, es)
    ensures Safe(s.q, s.threads) && AllBounded(s) && Linearized(s) && ThreadPoints(s)
  {
    var s0 := Init(n, dummy, garbage);
    InitFacts(n, dummy, garbage);
    LinearizedAlways(s0, es);
    BoundedAlways(s0, es);
  }

  lemma InitFacts(n: nat, dummy: Addr, garbage: Data)
    requires dummy != NULL
    ensures var s := Init(n, dummy, garbage); Safe(s.q, s.threads) && AllBounded(s) && Linearized(s) && ThreadPoints(s)
  {
    InitSafe(n, dummy, garbage);
  }

  /** Shape (mpmc_queue.h:143-160, 194-205): in every reachable state the head is not past the tail, the
      tail is at most one node behind, versions are positions, and an enqueue about to return has
      seen the tail reach its node; and every event moves head and tail by one node at most. */
  lemma ShapeAlways(s: State, n: nat, dummy: Addr, garbage: Data, es: seq<Event>, t: Tid, e: Event)
    requires Reachable(s, n, dummy, garbage, es)
    ensures Shape(s.q)
    ensures t < |s.threads| && s.threads[t].pc.EnqCount? ==> Upto(s.q, s.threads[t].node, s.q.tail.version)
    ensures Enabled(s, e) ==> Swing(s.q.head, Apply(s, e).q.head) && Swing(s.q.tail, Apply(s, e).q.tail)
  {
    ReachableFacts(s, n, dummy, garbage, es);
    if t < |s.threads| { assert EnqueuerOk(s.q, s.threads[t]); }
    if Enabled(s, e) { CellsSwing(s, e); }
  }

  lemma {:induction false} BoundedAlways(s: State, es: seq<Event>)
    requires Safe(s.q, s.threads) && AllBounded(s) && Admissible(s, es)
    ensures AllBounded(Exec(s, es))
    decreases |es|
  {
    if es == [] {
    } else {
      SafeKept(s, es[0]);
      BoundedKept(s, es[0]);
      BoundedAlways(Apply(s, es[0]), es[1..]);
    }
  }

  /** The run ends with the beginning of a call of t. */
  predicate JustCalled(es: seq<Event>, t: Tid) {
    es != [] && Begins(es[|es| - 1]) && es[|es| - 1].t == t
  }

  lemma CallMarks(s0: State, es: seq<Event>, t: Tid)
    requires Admissible(s0, es) && JustCalled(es, t)
    ensures t < |Exec(s0, es).threads| && Exec(s0, es).threads[t].mark == Wins(Exec(s0, es).q)
  {
    var k := |es| - 1;
    RunSplits(s0, es, k);
    assert es[k..] == [es[k]];
    BeginMarks(Exec(s0, es[..k]), es[k]);
  }

  /** Lock-freedom (mpmc_queue.h:137-157, 183-210): in every run each thread's loop passes that went
      round again are at most the DCAS instructions that succeeded, hence at most three for every
      item ever linked; and from the moment a call begins, its failed passes are at most the
      successes since. */
  lemma LockFree(s: State, n: nat, dummy: Addr, garbage: Data, es: seq<Event>, t: Tid, more: seq<Event>)
    requires Reachable(s, n, dummy, garbage, es) && t < |s.threads| && Admissible(s, more)
    ensures Rounds(Init(n, dummy, garbage), es, t) <= Successes(Init(n, dummy, garbage), es) <= 3 * (|s.q.nodes| - 1)
    ensures JustCalled(es, t) ==> Rounds(s, more, t) <= Successes(s, more)
  {
    var s0 := Init(n, dummy, garbage);
    assert Safe(s.q, s.threads) && AllBounded(s) by { ReachableFacts(s, n, dummy, garbage, es); }
    ThreadsStay(s0, es);
    assert Shape(s.q) && Bounded(s.q, s.threads[t]);
    FailsAreRounds(s0, es, t);
    WinsAreSuccesses(s0, es);
    if JustCalled(es, t) {
      CallMarks(s0, es, t);
      RoundsSince(s, more, t);
    }
  }

  lemma RoundsSince(s: State, more: seq<Event>, t: Tid)
    requires Safe(s.q, s.threads) && AllBounded(s) && t < |s.threads| && Admissible(s, more)
    requires s.threads[t].mark == Wins(s.q)
    ensures Rounds(s, more, t) <= Successes(s, more)
  {
    FailuresAreSuccesses(s, more, t);
    FailsAreRounds(s, more, t);
    WinsAreSuccesses(s, more);
    assert Bounded(Exec(s, more).q, Exec(s, more).threads[t]);
  }

  // ---- a thread that runs alone -------------------------------------------------------------------

  function Lag(q: Shared): int { |q.nodes| - 1 - q.tail.version }

  /** In the retry loop of mpmc_enqueue or mpmc_dequeue. */
  predicate Retrying(pc: Pc) {
    !pc.Idle? && !TookEffect(pc) && !InEmpty(pc)
  }

  /** The loop passes a thread needs if the others stop, counting the one in progress: one that may
      be stale, one that helps a lagging tail, and one that succeeds. */
  function Passes(q: Shared, th: Thread): int {
    if !Retrying(th.pc) then 1
    else if Wins(q) == th.mark then 1 + Lag(q)
    else 2 + Lag(q)
  }

  /** Steps left in the pass. */
  function Position(pc: Pc): nat {
    match pc
    case Idle => 0
    case EnqTailPtr => 10 case EnqTailVer => 9 case EnqNextPtr => 8 case EnqNextVer => 7
    case EnqCheckPtr => 6 case EnqCheckVer => 5 case EnqLink => 4 case EnqHelp => 4
    case EnqSwing => 2 case EnqCount => 1
    case DeqHeadPtr => 12 case DeqHeadVer => 11 case DeqTailPtr => 10 case DeqTailVer => 9 case DeqNextPtr => 8
    case DeqNextVer => 7 case DeqCheckPtr => 6 case DeqCheckVer => 5 case DeqHelp => 4 case DeqData => 4
    case DeqSwing => 3 case DeqCount => 2 case DeqFree => 1
    case EmpHeadPtr => 2 case EmpNextPtr => 1
  }

  function Rank(q: Shared, th: Thread): int {
    13 * (Passes(q, th) - 1) + Position(th.pc)
  }

  lemma EnqueueAlone(q: Shared, th: Thread, t: Tid, now: nat)
    requires Shape(q) && EnqueuerOk(q, th) && Bounded(q, th) && InEnqueue(th.pc)
    ensures var m := EnqueueMove(q, th, t, now);
      Rank(m.q, m.th) < Rank(q, th) && m.th.fails + Passes(m.q, m.th) <= th.fails + Passes(q, th)
  {
    NextOfNode(q, q.tail.version);
    if th.pc.EnqHelp? || th.pc.EnqSwing? { EnqueueSwing(q, th, t, now); }
  }

  lemma DequeueLoadsAlone(q: Shared, th: Thread, t: Tid, now: nat, junk: Data)
    requires Bounded(q, th) && (DequeueLoad(th.pc) || th.pc.DeqCheckPtr? || th.pc.DeqCheckVer?)
    requires q.tail.version < |q.nodes|
    ensures var m := DequeueMove(q, th, t, now, junk);
      Rank(m.q, m.th) < Rank(q, th) && m.th.fails + Passes(m.q, m.th) <= th.fails + Passes(q, th)
  {
  }

  lemma DequeueAlone(q: Shared, th: Thread, t: Tid, now: nat, junk: Data)
    requires Shape(q) && DequeuerOk(q, th) && Bounded(q, th) && !th.pc.Idle? && !InEnqueue(th.pc) && !InEmpty(th.pc)
    ensures var m := DequeueMove(q, th, t, now, junk);
      Rank(m.q, m.th) < Rank(q, th) && m.th.fails + Passes(m.q, m.th) <= th.fails + Passes(q, th)
  {
    if DequeueLoad(th.pc) || th.pc.DeqCheckPtr? || th.pc.DeqCheckVer? {
      DequeueLoadsAlone(q, th, t, now, junk);
    } else if th.pc.DeqHelp? {
      DequeueHelp(q, th, t, now, junk);
    }
  }

  /** Every step of a thread, whatever the others did before, brings it closer to its return. */
  lemma AloneCloser(s: State, e: Event)
    requires Safe(s.q, s.threads) && AllBounded(s) && Enabled(s, e) && e.Step?
    ensures var th, m := s.threads[e.t], MoveOf(s, e);
      Rank(m.q, m.th) < Rank(s.q, th) && m.th.fails + Passes(m.q, m.th) <= th.fails + Passes(s.q, th)
  {
    var th := s.threads[e.t];
    assert EnqueuerOk(s.q, th) && DequeuerOk(s.q, th) && Bounded(s.q, th);
    if InEnqueue(th.pc) {
      EnqueueAlone(s.q, th, e.t, |s.log|);
    } else if !InEmpty(th.pc) {
      DequeueAlone(s.q, th, e.t, |s.log|, e.junk);
    }
  }

  function Alone(t: Tid, junk: Data, n: nat): seq<Event> {
    seq(n, _ => Step(t, junk))
  }

  /** The thread finishes after n of its own steps and at most so many loop passes, as its bookkeeping counts them. */
  ghost predicate FinishesIn(s: State, t: Tid, junk: Data, n: nat, passes: int)
    requires t < |s.threads|
  {
    && Admissible(s, Alone(t, junk, n))
    && t < |Exec(s, Alone(t, junk, n)).threads|
    && Exec(s, Alone(t, junk, n)).threads[t].pc.Idle?
    && Exec(s, Alone(t, junk, n)).threads[t].fails <= s.threads[t].fails + passes - 1
  }

  lemma {:induction false} FinishesAlone(s: State, t: Tid, junk: Data) returns (n: nat)
    requires Safe(s.q, s.threads) && AllBounded(s) && t < |s.threads|
    ensures n <= Rank(s.q, s.threads[t]) && FinishesIn(s, t, junk, n, Passes(s.q, s.threads[t]))
    decreases Rank(s.q, s.threads[t])
  {
    if s.threads[t].pc.Idle? {
      n := 0;
    } else {
      var e := Step(t, junk);
      AloneCloser(s, e);
      SafeKept(s, e);
      BoundedKept(s, e);
      var k := FinishesAlone(Apply(s, e), t, junk);
      n := k + 1;
      assert Alone(t, junk, n)[0] == e && Alone(t, junk, n)[1..] == Alone(t, junk, k);
    }
  }

  /** Solo termination: from any reachable state, with all other threads frozen wherever they are, a
      thread returns within 38 steps of its own and three loop passes, at most two of which fail. */
  lemma SoloTermination(s: State, n: nat, dummy: Addr, garbage: Data, es: seq<Event>, t: Tid, junk: Data)
    requires Reachable(s, n, dummy, garbage, es) && t < |s.threads|
    ensures exists k :: 0 <= k <= 38 && Returns(s, t, junk, k)
  {
    assert Safe(s.q, s.threads) && AllBounded(s) by { ReachableFacts(s, n, dummy, garbage, es); }
    var k := FinishesAlone(s, t, junk);
    FailsAreRounds(s, Alone(t, junk, k), t);
    assert Returns(s, t, junk, k);
  }

  /** After n steps of its own the thread is back from its call, and at most two passes have failed. */
  ghost predicate Returns(s: State, t: Tid, junk: Data, n: nat) {
    && Admissible(s, Alone(t, junk, n)) && t < |Exec(s, Alone(t, junk, n)).threads|
    && Exec(s, Alone(t, junk, n)).threads[t].pc.Idle? && Rounds(s, Alone(t, junk, n), t) <= 2
  }
}
