/** The Michael-Scott queue as an object whose words the threads update in place. */
module MpmcQueue {
  import opened VersionedPointers
  import opened MpmcModel
  import opened MpmcInvariant
  import opened MpmcRuns
  import opened MpmcProgress
  import opened MpmcAccounting
  import opened MpmcTeardown

  class Queue {
    var head: VersionedPointer
    var tail: VersionedPointer
    var mem: map<Addr, Node>
    var freed: set<Addr>
    var len: int
    var threads: seq<Thread>
    // History only: no branch, no word of the program and no local variable it has depends on what follows.
    var nodes: seq<Addr>
    var values: seq<Data>
    var log: seq<Effect>
    var hist: seq<seq<Data>>
    var calls: seq<Call>

    function View(): State
      reads this
    {
      State(Shared(head, tail, mem, freed, nodes, values), len, threads, log, hist, calls)
    }

    ghost predicate Valid()
      reads this
    {
      Good(View())
    }

    /** mpmc_queue_init, for n threads; malloc returns dummy, with garbage in its user_data word. */
    constructor (n: nat, dummy: Addr, garbage: Data)
      requires dummy != NULL
      ensures Valid() && View() == Init(n, dummy, garbage)
    {
      head, tail := VersionedPointer(dummy, 0), VersionedPointer(dummy, 0);
      mem, freed, len := map[dummy := Node(NIL, garbage)], {}, 0;
      threads := seq(n, _ => RESTING);
      nodes, values, log, hist, calls := [dummy], [garbage], [], [[]], [];
      new;
      GoodInit(n, dummy, garbage);
    }

    /** double_cmp_and_swap on q->tail: cmp comes back as the value found. */
    method SwapTail(cmp: VersionedPointer, swap: VersionedPointer) returns (found: VersionedPointer)
      modifies this`tail
      ensures found == old(tail) && tail == if old(tail) == cmp then swap else old(tail)
    {
      found := tail;
      if tail == cmp { tail := swap; }
    }

    method SwapHead(cmp: VersionedPointer, swap: VersionedPointer) returns (found: VersionedPointer)
      modifies this`head
      ensures found == old(head) && head == if old(head) == cmp then swap else old(head)
    {
      found := head;
      if head == cmp { head := swap; }
    }

    /** double_cmp_and_swap on the next word of the node at a; a success links swap's node behind it. */
    method SwapNext(a: Addr, cmp: VersionedPointer, swap: VersionedPointer, value: Data)
      returns (found: VersionedPointer)
      requires a in mem
      modifies this`mem, this`nodes, this`values
      ensures found == old(mem[a].next)
      ensures found == cmp ==> mem == old(mem[a := mem[a].(next := swap)])
      ensures found == cmp ==> nodes == old(nodes) + [swap.ptr] && values == old(values) + [value]
      ensures found != cmp ==> mem == old(mem) && nodes == old(nodes) && values == old(values)
    {
      found := mem[a].next;
      if found == cmp {
        mem := mem[a := mem[a].(next := swap)];
        nodes, values := nodes + [swap.ptr], values + [value];
      }
    }

    /** Ends a step of thread t. */
    method Record(t: Tid, th: Thread, effect: Effect, answer: Answer)
      requires t < |threads|
      modifies this`threads, this`log, this`hist, this`calls
      ensures threads == old(threads)[t := th]
      ensures log == old(log) + [effect] && hist == old(hist) + [Abs(old(View()).q)]
      ensures calls == if answer == NotYet then old(calls)
                       else old(calls) + [Call(t, answer, th.start, th.lin, |old(log)| + 1)]
    {
      calls := if answer == NotYet then calls else calls + [Call(t, answer, th.start, th.lin, |log| + 1)];
      hist := hist + [Abs(View().q)];
      log := log + [effect];
      threads := threads[t := th];
    }

    method GoAgain(th: Thread, pc: Pc) returns (th': Thread)
      ensures th' == Again(View().q, th, pc).th
    {
      th' := th.(pc := pc, fails := th.fails + 1, mark := Wins(View().q));
    }

    /** Lines 139-143: the four loads and the two comparisons of a pass of mpmc_enqueue. */
    method EnqueueRead(t: Tid)
      requires t < |threads| && EnqueueLoad(threads[t].pc)
      requires threads[t].pc.EnqNextPtr? || threads[t].pc.EnqNextVer? ==> threads[t].tail.ptr in mem
      modifies this`threads, this`log, this`hist, this`calls
      ensures View() == Apply(old(View()), Step(t, 0))
    {
      var th := threads[t];
      match th.pc {
        case EnqTailPtr => th := th.(tail := th.tail.(ptr := tail.ptr), pc := EnqTailVer);
        case EnqTailVer => th := th.(tail := th.tail.(version := tail.version), pc := EnqNextPtr);
        case EnqNextPtr => th := th.(next := th.next.(ptr := mem[th.tail.ptr].next.ptr), pc := EnqNextVer);
        case EnqNextVer => th := th.(next := th.next.(version := mem[th.tail.ptr].next.version), pc := EnqCheckPtr);
        case EnqCheckPtr =>
          if th.tail.ptr == tail.ptr { th := th.(pc := EnqCheckVer); } else { th := GoAgain(th, EnqTailPtr); }
        case EnqCheckVer =>
          if th.tail.version != tail.version { th := GoAgain(th, EnqTailPtr); }
          else if th.next.ptr == NULL { th := th.(pc := EnqLink); }
          else { th := th.(pc := EnqHelp); }
      }
      Record(t, th, Silent, NotYet);
    }

    /** Lines 145-163: the locked instructions of mpmc_enqueue. */
    method EnqueueWrite(t: Tid)
      requires t < |threads| && InEnqueue(threads[t].pc) && !EnqueueLoad(threads[t].pc)
      requires threads[t].pc.EnqLink? ==> threads[t].tail.ptr in mem
      modifies this
      ensures View() == Apply(old(View()), Step(t, 0))
    {
      var th := threads[t];
      var effect, answer := Silent, NotYet;
      match th.pc {
        case EnqLink =>
          var found := SwapNext(th.tail.ptr, th.next, VersionedPointer(th.node, th.next.version + 1), th.data);
          if found == th.next {
            effect, th := Put(t, th.data), th.(pc := EnqSwing, lin := |log|);
          } else {
            th := GoAgain(th.(next := found), EnqTailPtr);
          }
        case EnqHelp =>
          var found := SwapTail(th.tail, VersionedPointer(th.next.ptr, th.tail.version + 1));
          th := GoAgain(th.(tail := found), EnqTailPtr);
        case EnqSwing =>
          var found := SwapTail(th.tail, VersionedPointer(th.node, th.tail.version + 1));
          th := th.(tail := found, pc := EnqCount);
        case EnqCount =>
          len := len + 1;
          answer, th := Enqueued(th.data), th.(pc := Idle);
      }
      Record(t, th, effect, answer);
    }

    /** Lines 185-189: the loads of a pass of mpmc_dequeue. */
    method DequeueRead(t: Tid)
      requires t < |threads| && DequeueLoad(threads[t].pc)
      requires threads[t].pc.DeqNextPtr? || threads[t].pc.DeqNextVer? ==> threads[t].head.ptr in mem
      modifies this`threads, this`log, this`hist, this`calls
      ensures View() == Apply(old(View()), Step(t, 0))
    {
      var th := threads[t];
      match th.pc {
        case DeqHeadPtr => th := th.(head := th.head.(ptr := head.ptr), pc := DeqHeadVer);
        case DeqHeadVer => th := th.(head := th.head.(version := head.version), pc := DeqTailPtr);
        case DeqTailPtr => th := th.(tail := th.tail.(ptr := tail.ptr), pc := DeqTailVer);
        case DeqTailVer => th := th.(tail := th.tail.(version := tail.version), pc := DeqNextPtr);
        case DeqNextPtr =>
          th := th.(next := th.next.(ptr := mem[th.head.ptr].next.ptr), pc := DeqNextVer, lin := |log|);
        case DeqNextVer => th := th.(next := th.next.(version := mem[th.head.ptr].next.version), pc := DeqCheckPtr);
      }
      Record(t, th, Silent, NotYet);
    }

    /** Lines 190-197: the comparisons, and the empty return. */
    method DequeueCheck(t: Tid)
      requires t < |threads| && (threads[t].pc.DeqCheckPtr? || threads[t].pc.DeqCheckVer?)
      modifies this`threads, this`log, this`hist, this`calls
      ensures View() == Apply(old(View()), Step(t, 0))
    {
      var th := threads[t];
      var answer := NotYet;
      if th.pc.DeqCheckPtr? {
        if th.head.ptr == head.ptr { th := th.(pc := DeqCheckVer); } else { th := GoAgain(th, DeqHeadPtr); }
      } else if th.head.version != head.version {
        th := GoAgain(th, DeqHeadPtr);
      } else if th.head.ptr != th.tail.ptr {
        th := th.(pc := DeqData);
      } else if th.next.ptr == NULL {
        answer, th := FoundEmpty, th.(pc := Idle);
      } else {
        th := th.(pc := DeqHelp);
      }
      Record(t, th, Silent, answer);
    }

    /** Lines 198-202: helping the tail, or reading the value. */
    method DequeueHelp(t: Tid)
      requires t < |threads| && (threads[t].pc.DeqHelp? || threads[t].pc.DeqData?)
      requires threads[t].pc.DeqData? ==> threads[t].next.ptr in mem
      modifies this`tail, this`threads, this`log, this`hist, this`calls
      ensures View() == Apply(old(View()), Step(t, 0))
    {
      var th := threads[t];
      if th.pc.DeqHelp? {
        var found := SwapTail(th.tail, VersionedPointer(th.next.ptr, th.tail.version + 1));
        th := GoAgain(th.(tail := found), DeqHeadPtr);
      } else {
        th := th.(data := mem[th.next.ptr].data, pc := DeqSwing);
      }
      Record(t, th, Silent, NotYet);
    }

    /** Lines 203-208: the head swing that takes the value, or fails. */
    method DequeueSwing(t: Tid)
      requires t < |threads| && threads[t].pc.DeqSwing?
      modifies this`head, this`threads, this`log, this`hist, this`calls
      ensures View() == Apply(old(View()), Step(t, 0))
    {
      var th := threads[t];
      var effect := Silent;
      var found := SwapHead(th.head, VersionedPointer(th.next.ptr, th.head.version + 1));
      if found == th.head {
        effect, th := Take(t, th.data), th.(pc := DeqCount, lin := |log|);
      } else {
        th := GoAgain(th.(head := found), DeqHeadPtr);
      }
      Record(t, th, effect, NotYet);
    }

    /** Lines 213-216: counting, freeing the old dummy, and the return. */
    method DequeueEnd(t: Tid, junk: Data)
      requires t < |threads| && (threads[t].pc.DeqCount? || threads[t].pc.DeqFree?)
      requires threads[t].pc.DeqFree? ==> threads[t].head.ptr in mem && threads[t].head.ptr !in freed
      modifies this`len, this`mem, this`freed, this`threads, this`log, this`hist, this`calls
      ensures View() == Apply(old(View()), Step(t, junk))
    {
      var th := threads[t];
      if th.pc.DeqCount? {
        len := len - 1;
        Record(t, th.(pc := DeqFree), Silent, NotYet);
      } else {
        Release(th.head.ptr, junk);
        Record(t, th.(pc := Idle), Silent, Dequeued(th.data));
      }
    }

    /** MCT_FREE: each block is released at most once. */
    method Release(a: Addr, junk: Data)
      requires a in mem && a !in freed
      modifies this`mem, this`freed
      ensures mem == old(mem)[a := old(mem)[a].(data := junk)] && freed == old(freed) + {a}
    {
      mem := mem[a := mem[a].(data := junk)];
      freed := freed + {a};
    }

    /** mpmc_queue_empty, line 116: the head pointer, then the next pointer of the node it names. */
    method EmptyRead(t: Tid)
      requires t < |threads| && InEmpty(threads[t].pc)
      requires threads[t].pc.EmpNextPtr? ==> threads[t].head.ptr in mem
      modifies this`threads, this`log, this`hist, this`calls
      ensures View() == Apply(old(View()), Step(t, 0))
    {
      var th := threads[t];
      if th.pc.EmpHeadPtr? {
        Record(t, th.(head := th.head.(ptr := head.ptr), pc := EmpNextPtr), Silent, NotYet);
      } else {
        var empty := mem[th.head.ptr].next.ptr == NULL;
        Record(t, th.(lin := |log|, pc := Idle), Silent, SaidEmpty(empty));
      }
    }

    /** A call begins; for an enqueue malloc returned block, which is new or was freed. */
    method Begin(e: Event)
      requires e.t < |threads| && Begins(e)
      modifies this`mem, this`freed, this`threads, this`log, this`hist, this`calls
      ensures View() == Apply(old(View()), e)
    {
      var th := threads[e.t].(start := |log|, mark := Wins(View().q));
      match e {
        case CallEnqueue(_, value, block) =>
          mem, freed := mem[block := Node(NIL, value)], freed - {block};
          th := th.(pc := EnqTailPtr, node := block, data := value);
        case CallDequeue(_) => th := th.(pc := DeqHeadPtr);
        case CallEmpty(_) => th := th.(pc := EmpHeadPtr);
      }
      Record(e.t, th, Silent, NotYet);
    }

    /** A freed block is overwritten, outside the queue. */
    method Scribble(t: Tid, block: Addr, contents: Node)
      requires t < |threads| && block in freed
      modifies this`mem, this`threads, this`log, this`hist, this`calls
      ensures View() == Apply(old(View()), Overwrite(t, block, contents))
    {
      mem := mem[block := contents];
      Record(t, threads[t], Silent, NotYet);
    }

    /** The next step of a thread inside a call. */
    method Advance(t: Tid, junk: Data)
      requires t < |threads| && !threads[t].pc.Idle? && ReadsExist(View().q, threads[t])
      modifies this
      ensures View() == Apply(old(View()), Step(t, junk))
    {
      var pc := threads[t].pc;
      if InEnqueue(pc) {
        if EnqueueLoad(pc) { EnqueueRead(t); } else { EnqueueWrite(t); }
      } else if InEmpty(pc) {
        EmptyRead(t);
      } else if DequeueLoad(pc) {
        DequeueRead(t);
      } else if pc.DeqCheckPtr? || pc.DeqCheckVer? {
        DequeueCheck(t);
      } else if pc.DeqCount? || pc.DeqFree? {
        DequeueEnd(t, junk);
      } else if pc.DeqSwing? {
        DequeueSwing(t);
      } else {
        DequeueHelp(t);
      }
    }

    /** Any event that may happen. */
    method Happen(e: Event)
      requires Valid() && Enabled(View(), e)
      modifies this
      ensures Valid() && View() == Apply(old(View()), e)
    {
      GoodKept(View(), e);
      if e.Step? {
        GoodReads(View(), e.t);
        Advance(e.t, e.junk);
      } else if e.Overwrite? {
        Scribble(e.t, e.block, e.contents);
      } else {
        Begin(e);
      }
    }

    /** Any schedule: the object does what the step machine does, so every theorem about runs is
        about it. */
    method Run(es: seq<Event>)
      requires Valid() && Admissible(View(), es)
      modifies this
      ensures Valid() && View() == Exec(old(View()), es)
    {
      var i := 0;
      while i < |es|
        invariant 0 <= i <= |es| && Valid()
        invariant Admissible(View(), es[i..]) && Exec(View(), es[i..]) == Exec(old(View()), es)
      {
        RunStep(View(), es, i);
        Happen(es[i]);
        i := i + 1;
      }
    }

    /** The loop of lines 183-210 ends when no other call runs. */
    method FinishDequeue(t: Tid, junk: Data, ghost q0: Shared)
      requires DrainingAlone(q0, View(), t)
      modifies this
      ensures DrainingAlone(q0, View(), t) && threads[t].pc.Idle? && |threads| == old(|threads|)
    {
      while !threads[t].pc.Idle?
        invariant DrainingAlone(q0, View(), t) && |threads| == old(|threads|)
        decreases Rank(View().q, threads[t])
      {
        DrainStep(q0, View(), t, junk);
        AloneCloser(View(), Step(t, junk));
        Advance(t, junk);
      }
    }

    /** A dequeue while no other call runs returns the oldest value and frees the old dummy. */
    method DequeueAlone(t: Tid, junk: Data) returns (value: Data)
      requires Valid() && Quiescent(View()) && t < |threads| && Abs(View().q) != []
      modifies this
      ensures Valid() && Drained(old(View()), View(), value)
    {
      ghost var s := View();
      DrainStart(s, t);
      Begin(CallDequeue(t));
      FinishDequeue(t, junk, s.q);
      value := threads[t].data;
      DrainEnd(s, View(), t);
    }

    /** mpmc_queue_len: what is queued, but for the calls between their DCAS and their count. */
    method Length() returns (r: int)
      requires Valid()
      ensures r == |Abs(View().q)| - Count(threads, NotAdded) + Count(threads, NotSubtracted)
    {
      r := len;
    }

    /** The second load of mpmc_queue_empty while no other call runs. */
    method EmptyLast(t: Tid, ghost q0: Shared) returns (empty: bool)
      requires Asking(q0, View(), t, EmpNextPtr) && q0.head.ptr in q0.mem
      modifies this`threads, this`log, this`hist, this`calls
      ensures Valid() && Quiescent(View()) && |threads| == old(|threads|) && View().q == q0
      ensures empty <==> Abs(q0) == []
    {
      AskNext(q0, View(), t);
      EmptyRead(t);
      empty := calls[|calls| - 1].answer.empty;
    }

    /** mpmc_queue_empty while no other call runs. */
    method EmptyAlone(t: Tid) returns (empty: bool)
      requires Valid() && Quiescent(View()) && t < |threads|
      modifies this`mem, this`freed, this`threads, this`log, this`hist, this`calls
      ensures Valid() && Quiescent(View()) && |threads| == old(|threads|) && View().q == old(View()).q
      ensures empty <==> Abs(View().q) == []
    {
      ghost var q0 := View().q;
      AskStart(View(), t);
      Begin(CallEmpty(t));
      AskHead(q0, View(), t);
      EmptyRead(t);
      empty := EmptyLast(t, q0);
    }

    /** One pass of the loop of mpmc_queue_destroy. */
    method DisposeOne(t: Tid, junk: Data, ghost q0: Shared, disposed: seq<Data>, released: seq<Addr>)
      returns (disposed': seq<Data>, released': seq<Addr>)
      requires TearingDown(q0, View(), t, disposed, released) && Abs(View().q) != []
      modifies this
      ensures TearingDown(q0, View(), t, disposed', released') && |Abs(View().q)| < |Abs(old(View()).q)|
    {
      ghost var before := View();
      released' := released + [head.ptr];
      var data := DequeueAlone(t, junk);
      disposed' := disposed + if data != NULL then [data] else [];
      UnwindOne(q0, before, View(), data, disposed, released);
    }

    /** The loop of mpmc_queue_destroy, lines 227-232: its measure is what is left in the queue. */
    method DisposeAll(t: Tid, junk: Data) returns (disposed: seq<Data>, released: seq<Addr>)
      requires Valid() && Quiescent(View()) && t < |threads|
      modifies this
      ensures TearingDown(old(View()).q, View(), t, disposed, released) && Abs(View().q) == []
    {
      ghost var q0 := View().q;
      disposed, released := [], [];
      TearingStarts(View(), t);
      var empty := EmptyAlone(t);
      while !empty
        invariant TearingDown(q0, View(), t, disposed, released)
        invariant empty <==> Abs(View().q) == []
        decreases |Abs(View().q)|
      {
        disposed, released := DisposeOne(t, junk, q0, disposed, released);
        empty := EmptyAlone(t);
      }
    }

    /** mpmc_queue_destroy, called when no call is running: it ends, hands the values that are left and
        not NULL to free in FIFO order, and frees every outstanding block once, the last dummy at the end. */
    method Destroy(t: Tid, junk: Data) returns (disposed: seq<Data>, released: seq<Addr>)
      requires Valid() && Quiescent(View()) && t < |threads|
      modifies this
      ensures disposed == NonNull(Abs(old(View()).q))
      ensures released == OutstandingNodes(old(View()).q)
      ensures freed == old(mem.Keys)
    {
      ghost var q0 := View().q;
      disposed, released := DisposeAll(t, junk);
      TearingEnds(q0, View(), t, disposed, released);
      released := released + [head.ptr];
      Release(head.ptr, junk);
    }
  }
}
