/** Blocks and lengths of the Michael-Scott queue. */
module MpmcAccounting {
  import opened VersionedPointers
  import opened MpmcModel
  import opened MpmcInvariant
  import opened MpmcSteps
  import opened MpmcRuns
  import opened MpmcLinearizability
  import opened MpmcProgress

  // ---- q->len ------------------------------------------------------------------------------------

  /** The thread has linked its node and not run atomic_inc yet. */
  predicate NotAdded(th: Thread) { th.pc.EnqSwing? || th.pc.EnqCount? }

  /** The thread has swung the head and not run atomic_dec yet. */
  predicate NotSubtracted(th: Thread) { th.pc.DeqCount? }

  function Count(threads: seq<Thread>, p: Thread -> bool): nat {
    if threads == [] then 0 else (if p(threads[0]) then 1 else 0) + Count(threads[1..], p)
  }

  lemma {:induction false} CountUpdate(threads: seq<Thread>, t: Tid, th: Thread, p: Thread -> bool)
    requires t < |threads|
    ensures Count(threads[t := th], p)
         == Count(threads, p) - (if p(threads[t]) then 1 else 0) + (if p(th) then 1 else 0)
  {
    if t == 0 {
      assert threads[0 := th][1..] == threads[1..];
    } else {
      assert threads[t := th][1..] == threads[1..][t - 1 := th];
      CountUpdate(threads[1..], t - 1, th, p);
    }
  }

  lemma {:induction false} CountNone(threads: seq<Thread>, p: Thread -> bool)
    requires forall i :: 0 <= i < |threads| ==> !p(threads[i])
    ensures Count(threads, p) == 0
  {
    if threads == [] {
    } else {
      forall i | 0 <= i < |threads[1..]| ensures !p(threads[1..][i]) { assert threads[1..][i] == threads[i + 1]; }
      CountNone(threads[1..], p);
    }
  }

  ghost predicate LengthOk(s: State) {
    s.len == |Abs(s.q)| - Count(s.threads, NotAdded) + Count(s.threads, NotSubtracted)
  }

  function One(b: bool): int { if b then 1 else 0 }

  /** A move keeps the account when the counter changes by what the queue and the waiting calls do. */
  predicate Balanced(q: Shared, th: Thread, m: Move) {
    m.count == |Abs(m.q)| - |Abs(q)| - One(NotAdded(m.th)) + One(NotAdded(th))
             + One(NotSubtracted(m.th)) - One(NotSubtracted(th))
  }

  lemma EnqueueLength(q: Shared, th: Thread, t: Tid, now: nat)
    requires Shape(q) && EnqueuerOk(q, th) && (th.pc.EnqLink? ==> Private(q, th)) && InEnqueue(th.pc)
    ensures Balanced(q, th, EnqueueMove(q, th, t, now))
  {
    EnqueueFifo(q, th, t, now);
  }

  lemma DequeueLength(q: Shared, th: Thread, t: Tid, now: nat, junk: Data)
    requires Shape(q) && DequeuerOk(q, th) && !InEnqueue(th.pc)
    ensures Balanced(q, th, DequeueMove(q, th, t, now, junk))
  {
    DequeueFifo(q, th, t, now, junk);
  }

  lemma MoveLength(s: State, e: Event)
    requires Safe(s.q, s.threads) && Enabled(s, e)
    ensures Balanced(s.q, s.threads[e.t], MoveOf(s, e))
  {
    var th := s.threads[e.t];
    assert EnqueuerOk(s.q, th) && DequeuerOk(s.q, th);
    if e.Step? {
      if InEnqueue(th.pc) {
        EnqueueLength(s.q, th, e.t, |s.log|);
      } else if !InEmpty(th.pc) {
        DequeueLength(s.q, th, e.t, |s.log|, e.junk);
      }
    }
  }

  lemma LengthKept(s: State, e: Event)
    requires Safe(s.q, s.threads) && Enabled(s, e) && LengthOk(s)
    ensures LengthOk(Apply(s, e))
  {
    MoveLength(s, e);
    CountUpdate(s.threads, e.t, MoveOf(s, e).th, NotAdded);
    CountUpdate(s.threads, e.t, MoveOf(s, e).th, NotSubtracted);
  }

  lemma {:induction false} LengthAlways(s: State, es: seq<Event>)
    requires Safe(s.q, s.threads) && LengthOk(s) && Admissible(s, es)
    ensures LengthOk(Exec(s, es))
    decreases |es|
  {
    if es == [] {
    } else {
      SafeKept(s, es[0]);
      LengthKept(s, es[0]);
      LengthAlways(Apply(s, es[0]), es[1..]);
    }
  }

  ghost predicate Quiescent(s: State) {
    forall t :: 0 <= t < |s.threads| ==> s.threads[t].pc.Idle?
  }

  /** Length accounting (mpmc_queue.h:158-163, 205-214): the counter trails the queue by exactly the
      calls between their DCAS and their atomic instruction, and is exact when no call is running. */
  lemma LengthAccounts(s: State, n: nat, dummy: Addr, garbage: Data, es: seq<Event>)
    requires Reachable(s, n, dummy, garbage, es)
    ensures LengthOk(s)
    ensures Quiescent(s) ==> s.len == |Abs(s.q)|
  {
    InitSafe(n, dummy, garbage);
    var s0 := Init(n, dummy, garbage);
    CountNone(s0.threads, NotAdded);
    CountNone(s0.threads, NotSubtracted);
    LengthAlways(s0, es);
    if Quiescent(s) {
      CountNone(s.threads, NotAdded);
      CountNone(s.threads, NotSubtracted);
    }
  }

  // ---- blocks --------------------------------------------------------------------------------------

  /** At most one thread has the block to free, and at most one has it to link. */
  ghost predicate OneClaim(threads: seq<Thread>, a: Addr) {
    forall t, u :: 0 <= t < |threads| && 0 <= u < |threads| && t != u ==>
      && !(MustFree(threads[t]) && MustFree(threads[u]) && threads[t].head.ptr == a && threads[u].head.ptr == a)
      && !(HasPrivate(threads[t]) && HasPrivate(threads[u]) && threads[t].node == a && threads[u].node == a)
  }

  /** Every block ever allocated is in exactly one of four places: freed, in the queue, one
      dequeuer's to free, or one enqueuer's to link. */
  ghost predicate OnePlace(s: State, a: Addr) {
    && One(a in s.q.freed) + One(InQueue(s.q, a)) + One(Pending(s.threads, a)) + One(Claimed(s.threads, a)) == 1
    && OneClaim(s.threads, a)
  }

  lemma ClaimsAreApart(q: Shared, threads: seq<Thread>, a: Addr)
    requires Safe(q, threads)
    ensures Claimed(threads, a) ==> !InQueue(q, a) && a !in q.freed && !Pending(threads, a)
    ensures Pending(threads, a) ==> !InQueue(q, a) && a !in q.freed
    ensures InQueue(q, a) ==> a !in q.freed
  {
    forall t | 0 <= t < |threads| && HasPrivate(threads[t])
      ensures !InQueue(q, threads[t].node) && threads[t].node !in q.freed && !Pending(threads, threads[t].node)
    {
      assert Private(q, threads[t]);
    }
  }

  /** Memory conservation (mpmc_queue.h:189-215): no block is lost or freed twice, and the block a
      dequeuer is about to free is neither freed nor in the queue. */
  lemma MemoryConserved(s: State, n: nat, dummy: Addr, garbage: Data, es: seq<Event>, a: Addr)
    requires Reachable(s, n, dummy, garbage, es) && a in s.q.mem
    ensures OnePlace(s, a)
    ensures Quiescent(s) ==> (a in s.q.freed <==> !InQueue(s.q, a))
  {
    ReachableFacts(s, n, dummy, garbage, es);
    ClaimsAreApart(s.q, s.threads, a);
  }

  /** The address the thread's next step reads or writes through. */
  predicate Touches(th: Thread, a: Addr) {
    match th.pc
    case EnqNextPtr | EnqNextVer | EnqLink => a == th.tail.ptr
    case DeqNextPtr | DeqNextVer | EmpNextPtr | DeqFree => a == th.head.ptr
    case DeqData => a == th.next.ptr
    case _ => false
  }

  /** It was this thread, in this call, that moved the head off the block, taking the value behind it. */
  ghost predicate TookFrom(s: State, t: Tid, a: Addr)
    requires t < |s.threads|
  {
    exists k :: 0 <= k && k + 1 < |s.q.nodes| && k + 1 < |s.q.values| && s.q.nodes[k] == a
      && s.threads[t].start < s.threads[t].lin && EffectIs(s.log, s.threads[t].lin, Take(t, s.q.values[k + 1]))
  }

  /** No step dereferences NULL or a block never allocated, line 202 included; a block is freed
      once, by the thread that took it out of the queue; and a link goes behind the last node. */
  lemma NeverFaults(s: State, n: nat, dummy: Addr, garbage: Data, es: seq<Event>, t: Tid, a: Addr)
    requires Reachable(s, n, dummy, garbage, es) && t < |s.threads| && Touches(s.threads[t], a)
    ensures a != NULL && a in s.q.mem
    ensures s.threads[t].pc.DeqFree? ==> a !in s.q.freed && !InQueue(s.q, a) && TookFrom(s, t, a)
    ensures s.threads[t].pc.EnqLink? && NextOf(s.q, a) == s.threads[t].next ==>
      a !in s.q.freed && s.threads[t].tail == s.q.tail && s.q.tail.version + 1 == |s.q.nodes|
  {
    ReachableFacts(s, n, dummy, garbage, es);
    var th := s.threads[t];
    assert EnqueuerOk(s.q, th) && DequeuerOk(s.q, th);
    if th.pc.EnqLink? && NextOf(s.q, a) == th.next {
      LinksAtEnd(s.q, th);
    } else if th.pc.DeqFree? {
      assert MustFree(th);
      assert ThreadPoint(s, t, th);
      assert s.q.nodes[th.head.version] == a;
    }
  }

  /** A user_data word read after its block was freed is never returned: the head has moved on, and
      the DCAS of line 205 fails in every later state. */
  lemma StaleDataIsDropped(s: State, n: nat, dummy: Addr, garbage: Data, es: seq<Event>, t: Tid, more: seq<Event>)
    requires Reachable(s, n, dummy, garbage, es) && t < |s.threads| && s.threads[t].pc.DeqData?
    requires s.threads[t].next.ptr in s.q.freed && Admissible(s, more)
    ensures Exec(s, more).q.head != s.threads[t].head
  {
    ReachableFacts(s, n, dummy, garbage, es);
    assert DequeuerOk(s.q, s.threads[t]);
    HeadOnlyAdvances(s, more);
  }

  lemma {:induction false} HeadOnlyAdvances(s: State, es: seq<Event>)
    requires Safe(s.q, s.threads) && Admissible(s, es)
    ensures s.q.head.version <= Exec(s, es).q.head.version
    decreases |es|
  {
    if es == [] {
    } else {
      SafeKept(s, es[0]);
      MoveIsFifo(s, es[0]);
      HeadOnlyAdvances(Apply(s, es[0]), es[1..]);
    }
  }
}
