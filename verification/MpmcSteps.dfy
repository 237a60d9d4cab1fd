/** The steps that change the shared part of the Michael-Scott queue: swings, links, and the allocator. */
module MpmcSteps {
  import opened VersionedPointers
  import opened MpmcModel
  import opened MpmcInvariant

  // ---- the tail ------------------------------------------------------------------------------------

  /** swap is the node after the tail, when the tail is still cmp. */
  ghost predicate OneFurther(q: Shared, cmp: VersionedPointer, swap: VersionedPointer) {
    && swap.version == cmp.version + 1
    && (q.tail == cmp ==> cmp.version + 1 < |q.nodes| && swap.ptr == q.nodes[cmp.version + 1])
  }

  /** The nodes and their blocks are the same. */
  ghost predicate SameNodes(q: Shared, q': Shared) {
    q'.nodes == q.nodes && q'.mem == q.mem
  }

  lemma SameNodesStay(q: Shared, q': Shared, a: Addr)
    requires SameNodes(q, q')
    ensures Stays(q, q', a)
  {
    forall i {:trigger Names(q, a, i)} {:trigger Names(q', a, i)} | Names(q, a, i) ensures Names(q', a, i) {
      assert NextAt(q', i) == NextAt(q, i);
    }
  }

  lemma TailShape(q: Shared, cmp: VersionedPointer, swap: VersionedPointer)
    requires Shape(q) && OneFurther(q, cmp, swap)
    ensures Shape(DcasTail(q, cmp, swap)) && Grows(q, DcasTail(q, cmp, swap))
  {
    var q' := DcasTail(q, cmp, swap);
    assert forall i {:trigger NextAt(q', i)} :: 0 <= i < |q.nodes| ==> NextAt(q', i) == NextAt(q, i);
  }

  /** No block changes hands when the tail moves. */
  lemma TailBlocks(q: Shared, threads: seq<Thread>, cmp: VersionedPointer, swap: VersionedPointer)
    requires Blocks(q, threads)
    ensures Blocks(DcasTail(q, cmp, swap), threads)
  {
    var q' := DcasTail(q, cmp, swap);
    forall a ensures InQueue(q, a) == InQueue(q', a) { }
  }

  /** A step that swings the tail, or tries to. */
  lemma SwingSafe(q: Shared, threads: seq<Thread>, t: Tid, cmp: VersionedPointer, swap: VersionedPointer, th': Thread)
    requires Safe(q, threads) && t < |threads| && SameDuties(threads[t], th') && OneFurther(q, cmp, swap)
    requires EnqueuerOk(DcasTail(q, cmp, swap), th') && DequeuerOk(DcasTail(q, cmp, swap), th')
    ensures Safe(DcasTail(q, cmp, swap), threads[t := th'])
  {
    var q' := DcasTail(q, cmp, swap);
    TailShape(q, cmp, swap);
    TailBlocks(q, threads, cmp, swap);
    forall a { SameNodesStay(q, q', a); }
    LocalsStable(q, q', threads, t, th');
    BlocksStable(q', threads, t, th');
  }

  /** An enqueuer swings the tail, line 154 for another or line 160 for itself: it moves to the node right
      behind it or stays, and after its own swing the tail has reached the enqueuer's node. */
  lemma EnqueueSwing(q: Shared, th: Thread, t: Tid, now: nat)
    requires Shape(q) && EnqueuerOk(q, th) && (th.pc.EnqSwing? || th.pc.EnqHelp?)
    ensures
      var swap := VersionedPointer(if th.pc.EnqSwing? then th.node else th.next.ptr, th.tail.version + 1);
      var m := EnqueueMove(q, th, t, now);
      m.q == DcasTail(q, th.tail, swap) && OneFurther(q, th.tail, swap)
      && EnqueuerOk(m.q, m.th) && DequeuerOk(m.q, m.th) && SameDuties(th, m.th)
  {
    NextOfNode(q, q.tail.version);
    if th.pc.EnqSwing? {
      var q' := EnqueueMove(q, th, t, now).q;
      assert q'.nodes[th.tail.version + 1] == th.node;
      assert th.tail.version + 1 <= q'.tail.version;
    }
  }

  lemma DequeueHelp(q: Shared, th: Thread, t: Tid, now: nat, junk: Data)
    requires Shape(q) && DequeuerOk(q, th) && th.pc.DeqHelp?
    ensures
      var swap := VersionedPointer(th.next.ptr, th.tail.version + 1);
      var m := DequeueMove(q, th, t, now, junk);
      m.q == DcasTail(q, th.tail, swap) && OneFurther(q, th.tail, swap)
      && EnqueuerOk(m.q, m.th) && DequeuerOk(m.q, m.th) && SameDuties(th, m.th)
  {
    NextOfNode(q, q.tail.version);
  }

  /** double_cmp_and_swap leaves in its cmp argument the value it found: the local that was compared is current
      afterwards, and on success unchanged, which line 215 relies on. */
  lemma DcasGivesBack(q: Shared, th: Thread, t: Tid, now: nat, junk: Data)
    requires !th.pc.Idle?
    ensures var m := StepMove(q, th, t, now, junk);
      && (th.pc.EnqLink? ==> m.th.next == NextOf(q, th.tail.ptr))
      && (th.pc.EnqHelp? || th.pc.EnqSwing? || th.pc.DeqHelp? ==> m.th.tail == q.tail)
      && (th.pc.DeqSwing? ==> m.th.head == q.head)
  {
  }

  // ---- the link ---------------------------------------------------------------------------------------

  /** Line 147 succeeds only behind the last node, and that is the node the enqueuer read. */
  lemma LinksAtEnd(q: Shared, th: Thread)
    requires Shape(q) && EnqueuerOk(q, th) && th.pc.EnqLink? && NextOf(q, th.tail.ptr) == th.next
    ensures th.tail == q.tail && q.tail.version + 1 == |q.nodes| && th.next == NIL
  {
  }

  function Linking(q: Shared, block: Addr, value: Data): Shared {
    DcasNext(q, q.tail.ptr, NIL, VersionedPointer(block, 1), value)
  }

  lemma LinkShape(q: Shared, block: Addr, value: Data)
    requires Shape(q) && q.tail.version + 1 == |q.nodes|
    requires block in q.mem && q.mem[block].next == NIL && !InQueue(q, block)
    ensures Shape(Linking(q, block, value)) && Grows(q, Linking(q, block, value))
  {
    var q' := Linking(q, block, value);
    NextOfNode(q, q.tail.version);
    assert q'.nodes == q.nodes + [block];
    forall i {:trigger NextAt(q', i)} | q.head.version <= i < |q'.nodes|
      ensures NextOf(q', q'.nodes[i]) == NextAt(q', i)
    {
      if i < |q.nodes| {
        NextOfNode(q, i);
        if i != q.tail.version { assert q.nodes[i] != q.tail.ptr; }
      }
    }
  }

  /** A link reuses no block. */
  lemma LinkStays(q: Shared, block: Addr, value: Data, a: Addr)
    requires Shape(q) && q.tail.version + 1 == |q.nodes| && NextOf(q, q.tail.ptr) == NIL && block != NULL
    ensures Stays(q, Linking(q, block, value), a)
  {
    var q' := Linking(q, block, value);
    assert q'.nodes == q.nodes + [block];
    forall i {:trigger Names(q, a, i)} {:trigger Names(q', a, i)} | Names(q, a, i) ensures Names(q', a, i) {
      if a == q.tail.ptr { assert i == q.tail.version; }
    }
  }

  lemma InQueueAfter(q: Shared, a: Addr, block: Addr, value: Data)
    requires NextOf(q, q.tail.ptr) == NIL && q.head.version <= |q.nodes|
    ensures InQueue(Linking(q, block, value), a) <==> InQueue(q, a) || a == block
  {
    var q' := Linking(q, block, value);
    assert q'.nodes == q.nodes + [block];
    assert q'.nodes[|q.nodes|] == block;
    if InQueue(q, a) {
      var i :| q.head.version <= i < |q.nodes| && q.nodes[i] == a;
      assert q'.nodes[i] == a;
    }
  }

  lemma LinkQueue(q: Shared, block: Addr, value: Data)
    requires Shape(q) && QueueBlocks(q) && NextOf(q, q.tail.ptr) == NIL
    requires block in q.mem && q.mem[block].data == value && !InQueue(q, block) && block !in q.freed
    ensures QueueBlocks(Linking(q, block, value))
  {
    var q' := Linking(q, block, value);
    assert q'.nodes == q.nodes + [block];
    forall i | q.head.version < i < |q'.nodes| ensures DataOf(q', q'.nodes[i]) == q'.values[i] {
      if i < |q.nodes| { assert DataOf(q', q.nodes[i]) == DataOf(q, q.nodes[i]); }
    }
  }

  lemma LinkPrivate(q: Shared, threads: seq<Thread>, t: Tid, th': Thread)
    requires Shape(q) && PrivateBlocks(q, threads) && NextOf(q, q.tail.ptr) == NIL
    requires t < |threads| && HasPrivate(threads[t]) && !HasPrivate(th')
    ensures PrivateBlocks(Linking(q, threads[t].node, threads[t].data), threads[t := th'])
  {
    forall a { InQueueAfter(q, a, threads[t].node, threads[t].data); }
    assert InQueue(q, q.tail.ptr);
  }

  lemma LinkPending(q: Shared, threads: seq<Thread>, t: Tid, th': Thread)
    requires Shape(q) && PendingBlocks(q, threads) && Apart(threads) && NextOf(q, q.tail.ptr) == NIL
    requires t < |threads| && HasPrivate(threads[t]) && !MustFree(th')
    ensures PendingBlocks(Linking(q, threads[t].node, threads[t].data), threads[t := th'])
  {
    forall a { InQueueAfter(q, a, threads[t].node, threads[t].data); }
  }

  lemma LinkNoLeak(q: Shared, threads: seq<Thread>, t: Tid, th': Thread)
    requires Shape(q) && NoLeak(q, threads) && NextOf(q, q.tail.ptr) == NIL
    requires t < |threads| && HasPrivate(threads[t]) && !HasPrivate(th')
    ensures NoLeak(Linking(q, threads[t].node, threads[t].data), threads[t := th'])
  {
    forall a ensures Pending(threads, a) ==> Pending(threads[t := th'], a)
             ensures Claimed(threads, a) && a != threads[t].node ==> Claimed(threads[t := th'], a) {
      ClaimsStable(threads, t, th', a);
    }
    forall a { InQueueAfter(q, a, threads[t].node, threads[t].data); }
    assert InQueue(q, q.tail.ptr);
  }

  lemma LinkBlocks(q: Shared, threads: seq<Thread>, t: Tid, th': Thread)
    requires Shape(q) && Blocks(q, threads) && NextOf(q, q.tail.ptr) == NIL
    requires t < |threads| && HasPrivate(threads[t]) && !HasPrivate(th') && !MustFree(th')
    ensures Blocks(Linking(q, threads[t].node, threads[t].data), threads[t := th'])
  {
    assert Private(q, threads[t]);
    LinkQueue(q, threads[t].node, threads[t].data);
    LinkPrivate(q, threads, t, th');
    LinkPending(q, threads, t, th');
    LinkNoLeak(q, threads, t, th');
    assert Apart(threads[t := th']);
  }

  lemma LinkOk(q: Shared, th: Thread, t: Tid, now: nat)
    requires Shape(q) && EnqueuerOk(q, th) && Private(q, th) && th.pc.EnqLink? && NextOf(q, th.tail.ptr) == th.next
    ensures var m := EnqueueMove(q, th, t, now);
      && m.q == Linking(q, th.node, th.data)
      && Shape(m.q) && Grows(q, m.q) && EnqueuerOk(m.q, m.th) && DequeuerOk(m.q, m.th) && m.th.pc.EnqSwing?
    ensures NextOf(q, q.tail.ptr) == NIL && q.tail.version + 1 == |q.nodes|
  {
    LinksAtEnd(q, th);
    LinkShape(q, th.node, th.data);
  }

  /** Line 147, the instant an enqueue takes effect. */
  lemma LinkSafe(q: Shared, threads: seq<Thread>, t: Tid, now: nat)
    requires Safe(q, threads) && t < |threads| && threads[t].pc.EnqLink?
    requires NextOf(q, threads[t].tail.ptr) == threads[t].next
    ensures var m := EnqueueMove(q, threads[t], t, now); Safe(m.q, threads[t := m.th])
  {
    var th, m := threads[t], EnqueueMove(q, threads[t], t, now);
    LinkOk(q, th, t, now);
    LinkBlocks(q, threads, t, m.th);
    assert Private(q, th);
    forall a { LinkStays(q, th.node, th.data, a); }
    LocalsStable(q, m.q, threads, t, m.th);
  }

  // ---- the head -----------------------------------------------------------------------------------------

  lemma HeadShape(q: Shared, th: Thread)
    requires Shape(q) && DequeuerOk(q, th) && th.pc.DeqSwing? && q.head == th.head
    ensures var q' := DcasHead(q, th.head, VersionedPointer(th.next.ptr, th.head.version + 1));
      Shape(q') && Grows(q, q') && q'.head.version == q.head.version + 1
  {
    var q' := DcasHead(q, th.head, VersionedPointer(th.next.ptr, th.head.version + 1));
    forall i {:trigger NextAt(q', i)} | q'.head.version <= i < |q'.nodes|
      ensures NextOf(q', q'.nodes[i]) == NextAt(q', i)
    {
      NextOfNode(q, i);
    }
  }

  /** The old dummy leaves the queue, and nothing else does. */
  lemma InQueueBehind(q: Shared, head': VersionedPointer, a: Addr)
    requires Shape(q) && head'.version == q.head.version + 1
    ensures InQueue(q.(head := head'), a) <==> InQueue(q, a) && a != q.head.ptr
  {
    var q' := q.(head := head');
    if InQueue(q, a) && a != q.head.ptr {
      var i :| q.head.version <= i < |q.nodes| && q.nodes[i] == a;
      assert q'.nodes[i] == a;
    }
  }

  lemma HeadPending(q: Shared, threads: seq<Thread>, t: Tid, th': Thread, head': VersionedPointer)
    requires Shape(q) && PendingBlocks(q, threads) && QueueBlocks(q)
    requires t < |threads| && MustFree(th') && th'.head == q.head && head'.version == q.head.version + 1
    ensures PendingBlocks(q.(head := head'), threads[t := th'])
  {
    forall a { InQueueBehind(q, head', a); }
    assert InQueue(q, q.head.ptr);
  }

  lemma HeadNoLeak(q: Shared, threads: seq<Thread>, t: Tid, th': Thread, head': VersionedPointer)
    requires Shape(q) && NoLeak(q, threads) && head'.version == q.head.version + 1
    requires t < |threads| && !HasPrivate(threads[t]) && !MustFree(threads[t]) && MustFree(th') && th'.head == q.head
    ensures NoLeak(q.(head := head'), threads[t := th'])
  {
    var threads' := threads[t := th'];
    forall a { InQueueBehind(q, head', a); }
    forall a { ClaimsStable(threads, t, th', a); }
    assert Pending(threads', q.head.ptr) by { assert MustFree(threads'[t]); }
  }

  lemma HeadApart(q: Shared, threads: seq<Thread>, t: Tid, th': Thread)
    requires Shape(q) && PrivateBlocks(q, threads) && Apart(threads)
    requires t < |threads| && MustFree(th') && !HasPrivate(th') && th'.head == q.head
    ensures Apart(threads[t := th'])
  {
    assert InQueue(q, q.head.ptr);
    forall u | 0 <= u < |threads| && HasPrivate(threads[u]) ensures threads[u].node != q.head.ptr {
      assert Private(q, threads[u]);
    }
  }

  lemma HeadBlocks(q: Shared, threads: seq<Thread>, t: Tid, th': Thread, head': VersionedPointer)
    requires Shape(q) && Blocks(q, threads) && head'.version == q.head.version + 1
    requires t < |threads| && !HasPrivate(threads[t]) && !MustFree(threads[t])
    requires MustFree(th') && !HasPrivate(th') && th'.head == q.head
    ensures Blocks(q.(head := head'), threads[t := th'])
  {
    HeadPending(q, threads, t, th', head');
    HeadNoLeak(q, threads, t, th', head');
    HeadApart(q, threads, t, th');
    forall a { InQueueBehind(q, head', a); }
  }

  lemma TakeOk(q: Shared, th: Thread, t: Tid, now: nat, junk: Data)
    requires Shape(q) && DequeuerOk(q, th) && th.pc.DeqSwing? && q.head == th.head
    ensures var m := DequeueMove(q, th, t, now, junk);
      && m.q == q.(head := m.q.head) && m.q.head.version == q.head.version + 1
      && Shape(m.q) && Grows(q, m.q) && EnqueuerOk(m.q, m.th) && DequeuerOk(m.q, m.th)
      && m.th.pc.DeqCount? && m.th.head == q.head
  {
    HeadShape(q, th);
  }

  /** Line 205, the instant a dequeue takes effect. */
  lemma TakeSafe(q: Shared, threads: seq<Thread>, t: Tid, now: nat, junk: Data)
    requires Safe(q, threads) && t < |threads| && threads[t].pc.DeqSwing? && q.head == threads[t].head
    ensures var m := DequeueMove(q, threads[t], t, now, junk); Safe(m.q, threads[t := m.th])
  {
    var th, m := threads[t], DequeueMove(q, threads[t], t, now, junk);
    assert DequeuerOk(q, th);
    TakeOk(q, th, t, now, junk);
    HeadBlocks(q, threads, t, m.th, m.q.head);
    forall a { SameNodesStay(q, m.q, a); }
    LocalsStable(q, m.q, threads, t, m.th);
  }

  // ---- the allocator --------------------------------------------------------------------------------------

  /** A block outside the queue is written. */
  ghost predicate WritesOutside(q: Shared, q': Shared, a: Addr) {
    && q' == q.(mem := q.mem[a := if a in q'.mem then q'.mem[a] else Node(NIL, 0)], freed := q'.freed)
    && !InQueue(q, a) && a != NULL
  }

  lemma OutsideShape(q: Shared, q': Shared, a: Addr)
    requires Shape(q) && WritesOutside(q, q', a)
    ensures Shape(q') && Grows(q, q')
    ensures forall b :: InQueue(q', b) == InQueue(q, b)
  {
    forall b ensures InQueue(q', b) == InQueue(q, b) { }
    forall i {:trigger NextAt(q', i)} | q.head.version <= i < |q.nodes|
      ensures NextOf(q', q.nodes[i]) == NextAt(q', i)
    {
      NextOfNode(q, i);
      assert InQueue(q, q.nodes[i]);
    }
  }

  lemma OutsideStays(q: Shared, q': Shared, a: Addr, b: Addr)
    requires WritesOutside(q, q', a) && (b == a ==> NextOf(q', a) == NextOf(q, a))
    ensures Stays(q, q', b)
  {
    forall i {:trigger Names(q, b, i)} {:trigger Names(q', b, i)} | Names(q, b, i) ensures Names(q', b, i) {
      assert NextAt(q', i) == NextAt(q, i);
    }
  }

  lemma OutsideQueue(q: Shared, q': Shared, a: Addr)
    requires QueueBlocks(q) && WritesOutside(q, q', a) && q'.freed <= q.freed + {a}
    ensures QueueBlocks(q')
  {
    forall i | q.head.version <= i < |q.nodes| ensures q.nodes[i] != a { assert InQueue(q, q.nodes[i]); }
    forall i | q.head.version < i < |q.nodes| && i < |q.values| ensures DataOf(q', q.nodes[i]) == q.values[i] { }
  }

  lemma FreeBlocks(q: Shared, threads: seq<Thread>, t: Tid, th': Thread, junk: Data)
    requires Shape(q) && Blocks(q, threads) && t < |threads| && MustFree(threads[t]) && threads[t].head.ptr in q.mem
    requires !MustFree(th') && !HasPrivate(th')
    ensures Blocks(Free(q, threads[t].head.ptr, junk), threads[t := th'])
  {
    var a := threads[t].head.ptr;
    var q' := Free(q, a, junk);
    assert WritesOutside(q, q', a);
    OutsideShape(q, q', a);
    OutsideQueue(q, q', a);
    forall b { ClaimsStable(threads, t, th', b); }
    FreePrivate(q, threads, t, th', junk);
  }

  lemma FreePrivate(q: Shared, threads: seq<Thread>, t: Tid, th': Thread, junk: Data)
    requires Shape(q) && PrivateBlocks(q, threads) && PendingBlocks(q, threads) && Apart(threads)
    requires t < |threads| && MustFree(threads[t]) && threads[t].head.ptr in q.mem && !MustFree(th') && !HasPrivate(th')
    ensures var q' := Free(q, threads[t].head.ptr, junk);
      PrivateBlocks(q', threads[t := th']) && PendingBlocks(q', threads[t := th']) && Apart(threads[t := th'])
  {
    var a := threads[t].head.ptr;
    assert WritesOutside(q, Free(q, a, junk), a);
    OutsideShape(q, Free(q, a, junk), a);
  }

  /** Line 215: the block freed was not freed before, and it is not in the queue. */
  lemma FreeSafe(q: Shared, threads: seq<Thread>, t: Tid, now: nat, junk: Data)
    requires Safe(q, threads) && t < |threads| && threads[t].pc.DeqFree?
    ensures var m := DequeueMove(q, threads[t], t, now, junk); Safe(m.q, threads[t := m.th])
    ensures var a := threads[t].head.ptr; a in q.mem && a !in q.freed && !InQueue(q, a)
  {
    var th, m := threads[t], DequeueMove(q, threads[t], t, now, junk);
    assert DequeuerOk(q, th);
    assert WritesOutside(q, m.q, th.head.ptr);
    OutsideShape(q, m.q, th.head.ptr);
    FreeBlocks(q, threads, t, m.th, junk);
    forall a { OutsideStays(q, m.q, th.head.ptr, a); }
    LocalsStable(q, m.q, threads, t, m.th);
  }

  /** A block that no one has: never handed out, or freed. */
  ghost predicate Loose(q: Shared, threads: seq<Thread>, a: Addr) {
    a != NULL && !InQueue(q, a) && !Pending(threads, a) && !Claimed(threads, a)
  }

  lemma ReusableIsLoose(q: Shared, threads: seq<Thread>, a: Addr)
    requires Shape(q) && Blocks(q, threads) && a != NULL && (a !in q.mem || a in q.freed)
    ensures Loose(q, threads, a)
  {
    forall t | 0 <= t < |threads| && HasPrivate(threads[t]) ensures threads[t].node != a {
      assert Private(q, threads[t]);
    }
  }

  lemma AllocBlocks(q: Shared, threads: seq<Thread>, t: Tid, th': Thread, block: Addr, value: Data)
    requires Shape(q) && Blocks(q, threads) && Loose(q, threads, block) && (block !in q.mem || block in q.freed)
    requires t < |threads| && !MustFree(threads[t]) && !HasPrivate(threads[t])
    requires HasPrivate(th') && !MustFree(th') && th'.node == block && th'.data == value
    ensures Blocks(Alloc(q, block, value), threads[t := th'])
  {
    var q', threads' := Alloc(q, block, value), threads[t := th'];
    assert WritesOutside(q, q', block);
    OutsideShape(q, q', block);
    OutsideQueue(q, q', block);
    forall b { ClaimsStable(threads, t, th', b); }
    assert Claimed(threads', block) by { assert HasPrivate(threads'[t]); }
    AllocPrivate(q, threads, t, th', block, value);
  }

  lemma AllocPrivate(q: Shared, threads: seq<Thread>, t: Tid, th': Thread, block: Addr, value: Data)
    requires Shape(q) && PrivateBlocks(q, threads) && PendingBlocks(q, threads) && Apart(threads)
    requires Loose(q, threads, block) && t < |threads| && !MustFree(th') && th'.node == block && th'.data == value
    ensures var q' := Alloc(q, block, value);
      PrivateBlocks(q', threads[t := th']) && PendingBlocks(q', threads[t := th']) && Apart(threads[t := th'])
  {
    assert WritesOutside(q, Alloc(q, block, value), block);
    OutsideShape(q, Alloc(q, block, value), block);
    assert forall u :: 0 <= u < |threads| && HasPrivate(threads[u]) ==> threads[u].node != block;
    assert forall u :: 0 <= u < |threads| && MustFree(threads[u]) ==> threads[u].head.ptr != block;
  }

  /** An enqueue begins with a block that is new, or was freed and is held by no thread. */
  lemma AllocSafe(q: Shared, threads: seq<Thread>, t: Tid, e: Event, now: nat)
    requires Safe(q, threads) && t < |threads| && threads[t].pc.Idle?
    requires e.CallEnqueue? && e.block != NULL
    requires e.block !in q.mem
          || (e.block in q.freed && forall u :: 0 <= u < |threads| ==> !Misled(threads[u], e.block, NIL))
    ensures var m := CallMove(q, threads[t], e, now); Safe(m.q, threads[t := m.th])
  {
    var m := CallMove(q, threads[t], e, now);
    ReusableIsLoose(q, threads, e.block);
    assert WritesOutside(q, m.q, e.block);
    OutsideShape(q, m.q, e.block);
    AllocBlocks(q, threads, t, m.th, e.block, e.value);
    forall u, a | 0 <= u < |threads| && Misled(threads[u], a, NextOf(m.q, a)) ensures Stays(q, m.q, a) {
      if a == e.block { FollowsAllocated(q, threads, u, a); }
      OutsideStays(q, m.q, e.block, a);
    }
    LocalsStable(q, m.q, threads, t, m.th);
  }

  /** The block a thread is about to follow a pointer to is allocated. */
  lemma FollowsAllocated(q: Shared, threads: seq<Thread>, u: Tid, a: Addr)
    requires Shape(q) && Locals(q, threads) && u < |threads|
    requires (threads[u].pc.EnqLink? && threads[u].tail.ptr == a)
          || (threads[u].pc.EmpNextPtr? && threads[u].head.ptr == a)
    ensures a in q.mem
  {
    assert EnqueuerOk(q, threads[u]) && DequeuerOk(q, threads[u]);
  }

  lemma OverwriteBlocks(q: Shared, threads: seq<Thread>, a: Addr, contents: Node)
    requires Shape(q) && Blocks(q, threads) && a in q.freed && Loose(q, threads, a)
    ensures Blocks(q.(mem := q.mem[a := contents]), threads)
  {
    var q' := q.(mem := q.mem[a := contents]);
    assert WritesOutside(q, q', a);
    OutsideShape(q, q', a);
    OutsideQueue(q, q', a);
    assert forall u :: 0 <= u < |threads| && HasPrivate(threads[u]) ==> threads[u].node != a;
  }

  /** A freed block is overwritten with something that misleads no thread. */
  lemma OverwriteSafe(q: Shared, threads: seq<Thread>, a: Addr, contents: Node)
    requires Safe(q, threads) && a in q.freed
    requires forall u :: 0 <= u < |threads| ==> !Misled(threads[u], a, contents.next)
    ensures Safe(q.(mem := q.mem[a := contents]), threads)
  {
    var q' := q.(mem := q.mem[a := contents]);
    ReusableIsLoose(q, threads, a);
    assert WritesOutside(q, q', a);
    OutsideShape(q, q', a);
    OverwriteBlocks(q, threads, a, contents);
    forall u | 0 <= u < |threads| ensures EnqueuerOk(q', threads[u]) && DequeuerOk(q', threads[u]) {
      forall b | Misled(threads[u], b, NextOf(q', b)) ensures Stays(q, q', b) { OutsideStays(q, q', a, b); }
      LocalStable(q, q', threads[u]);
    }
  }
}
