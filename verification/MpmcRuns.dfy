/** Runs of the Michael-Scott queue: any number of threads, any schedule. */
module MpmcRuns {
  import opened VersionedPointers
  import opened MpmcModel
  import opened MpmcInvariant
  import opened MpmcSteps

  /** Every event of es may happen when it does. */
  predicate Admissible(s: State, es: seq<Event>)
    decreases |es|
  {
    es == [] || (Enabled(s, es[0]) && Admissible(Apply(s, es[0]), es[1..]))
  }

  function Exec(s: State, es: seq<Event>): State
    requires Admissible(s, es)
    decreases |es|
  {
    if es == [] then s else Exec(Apply(s, es[0]), es[1..])
  }

  lemma RunStep(s: State, es: seq<Event>, i: nat)
    requires i < |es| && Admissible(s, es[i..])
    ensures Enabled(s, es[i]) && Admissible(Apply(s, es[i]), es[i + 1..])
    ensures Exec(s, es[i..]) == Exec(Apply(s, es[i]), es[i + 1..])
  {
    assert es[i..][0] == es[i] && es[i..][1..] == es[i + 1..];
  }

  /** A run may be cut anywhere. */
  lemma {:induction false} RunSplits(s: State, es: seq<Event>, i: nat)
    requires i <= |es| && Admissible(s, es)
    ensures Admissible(s, es[..i]) && Admissible(Exec(s, es[..i]), es[i..])
    ensures Exec(s, es) == Exec(Exec(s, es[..i]), es[i..])
    decreases i
  {
    if i == 0 {
      assert es[..0] == [] && es[0..] == es;
    } else {
      assert es[1..][..i - 1] == es[..i][1..] && es[1..][i - 1..] == es[i..];
      RunSplits(Apply(s, es[0]), es[1..], i - 1);
    }
  }

  lemma DequeueSafe(q: Shared, threads: seq<Thread>, t: Tid, now: nat, junk: Data)
    requires Safe(q, threads) && t < |threads| && !threads[t].pc.Idle?
    requires !InEnqueue(threads[t].pc) && !InEmpty(threads[t].pc)
    ensures var m := DequeueMove(q, threads[t], t, now, junk); Safe(m.q, threads[t := m.th])
  {
    var th, m := threads[t], DequeueMove(q, threads[t], t, now, junk);
    assert EnqueuerOk(q, th) && DequeuerOk(q, th);
    if DequeueLoad(th.pc) {
      DequeueLoads(q, th, t, now, junk);
      LocalMove(q, threads, t, m.th);
    } else if th.pc.DeqCheckPtr? || th.pc.DeqCheckVer? {
      DequeueChecks(q, th, t, now, junk);
      LocalMove(q, threads, t, m.th);
    } else if th.pc.DeqData? || th.pc.DeqCount? {
      DequeueTakes(q, th, t, now, junk);
      LocalMove(q, threads, t, m.th);
    } else if th.pc.DeqHelp? {
      DequeueHelp(q, th, t, now, junk);
      SwingSafe(q, threads, t, th.tail, VersionedPointer(th.next.ptr, th.tail.version + 1), m.th);
    } else if th.pc.DeqFree? {
      FreeSafe(q, threads, t, now, junk);
    } else if q.head == th.head {
      TakeSafe(q, threads, t, now, junk);
    } else {
      LocalMove(q, threads, t, m.th);
    }
  }

  lemma EnqueueSafe(q: Shared, threads: seq<Thread>, t: Tid, now: nat)
    requires Safe(q, threads) && t < |threads| && InEnqueue(threads[t].pc)
    ensures var m := EnqueueMove(q, threads[t], t, now); Safe(m.q, threads[t := m.th])
  {
    var th, m := threads[t], EnqueueMove(q, threads[t], t, now);
    assert EnqueuerOk(q, th) && DequeuerOk(q, th);
    if EnqueueLoad(th.pc) {
      EnqueueLoads(q, th, t, now);
      LocalMove(q, threads, t, m.th);
    } else if th.pc.EnqHelp? || th.pc.EnqSwing? {
      EnqueueSwing(q, th, t, now);
      var swap := VersionedPointer(if th.pc.EnqSwing? then th.node else th.next.ptr, th.tail.version + 1);
      SwingSafe(q, threads, t, th.tail, swap, m.th);
    } else if th.pc.EnqLink? && NextOf(q, th.tail.ptr) == th.next {
      LinkSafe(q, threads, t, now);
    } else {
      LocalMove(q, threads, t, m.th);
    }
  }

  lemma EmptySafe(q: Shared, threads: seq<Thread>, t: Tid, now: nat)
    requires Safe(q, threads) && t < |threads| && InEmpty(threads[t].pc)
    ensures var m := EmptyMove(q, threads[t], now); Safe(m.q, threads[t := m.th])
  {
    assert EnqueuerOk(q, threads[t]) && DequeuerOk(q, threads[t]);
    EmptyLoads(q, threads[t], now);
    LocalMove(q, threads, t, EmptyMove(q, threads[t], now).th);
  }

  lemma CallSafe(s: State, e: Event)
    requires Safe(s.q, s.threads) && Enabled(s, e) && !e.Step?
    ensures var m := CallMove(s.q, s.threads[e.t], e, |s.log|); Safe(m.q, s.threads[e.t := m.th])
  {
    if e.CallEnqueue? {
      AllocSafe(s.q, s.threads, e.t, e, |s.log|);
    } else if e.Overwrite? {
      OverwriteSafe(s.q, s.threads, e.block, e.contents);
      assert s.threads[e.t := s.threads[e.t]] == s.threads;
    } else {
      LocalMove(s.q, s.threads, e.t, CallMove(s.q, s.threads[e.t], e, |s.log|).th);
    }
  }

  lemma SafeKept(s: State, e: Event)
    requires Safe(s.q, s.threads) && Enabled(s, e)
    ensures Safe(Apply(s, e).q, Apply(s, e).threads)
  {
    var th := s.threads[e.t];
    if !e.Step? {
      CallSafe(s, e);
    } else if InEnqueue(th.pc) {
      EnqueueSafe(s.q, s.threads, e.t, |s.log|);
    } else if InEmpty(th.pc) {
      EmptySafe(s.q, s.threads, e.t, |s.log|);
    } else {
      DequeueSafe(s.q, s.threads, e.t, |s.log|, e.junk);
    }
  }

  /** The allocator is free in what it does: a freed block may be left with any user_data, and overwritten with
      anything that misleads no thread. */
  lemma AllocatorIsFree(s: State, e: Event)
    requires Enabled(s, e)
    ensures e.Overwrite? ==>
      Apply(s, e).q == s.q.(mem := s.q.mem[e.block := e.contents]) && Apply(s, e).threads == s.threads
    ensures e.Step? && s.threads[e.t].pc.DeqFree? ==>
      && Apply(s, e).q == Free(s.q, s.threads[e.t].head.ptr, e.junk)
      && DataOf(Apply(s, e).q, s.threads[e.t].head.ptr) == e.junk
  {
    assert e.Overwrite? ==> s.threads[e.t := s.threads[e.t]] == s.threads;
  }

  lemma InitSafe(n: nat, dummy: Addr, garbage: Data)
    requires dummy != NULL
    ensures Safe(Init(n, dummy, garbage).q, Init(n, dummy, garbage).threads)
  {
    var s := Init(n, dummy, garbage);
    assert s.q.nodes[0] == dummy;
    assert InQueue(s.q, dummy);
  }
}
