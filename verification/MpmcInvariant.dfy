/** What every reachable state of the Michael-Scott queue satisfies, blocks that are freed and handed out
    again included, and the steps that change nothing shared. */
module MpmcInvariant {
  import opened VersionedPointers
  import opened MpmcModel

  /** The list: head and tail are positions in it, tail lags by at most one node, the nodes from the head on
      are different blocks, and each next word is NIL or points one node further with version 1. */
  ghost predicate Shape(q: Shared) {
    && |q.nodes| == |q.values|
    && q.head.version <= q.tail.version < |q.nodes| <= q.tail.version + 2
    && q.head.ptr == q.nodes[q.head.version]
    && q.tail.ptr == q.nodes[q.tail.version]
    && NULL !in q.mem
    && (forall i :: 0 <= i < |q.nodes| ==> q.nodes[i] in q.mem)
    && (forall i, j :: q.head.version <= i < j < |q.nodes| ==> q.nodes[i] != q.nodes[j])
    && (forall i {:trigger NextAt(q, i)} :: q.head.version <= i < |q.nodes| ==> NextOf(q, q.nodes[i]) == NextAt(q, i))
  }

  ghost function NextAt(q: Shared, i: nat): VersionedPointer {
    if i + 1 < |q.nodes| then VersionedPointer(q.nodes[i + 1], 1) else NIL
  }

  /** The block at a has been the node of position i and is not reused since. */
  ghost predicate Names(q: Shared, a: Addr, i: nat) {
    i < |q.nodes| && q.nodes[i] == a && NextOf(q, a) == NextAt(q, i)
  }

  /** The block is in the queue, the dummy included. */
  ghost predicate InQueue(q: Shared, a: Addr) {
    exists i :: q.head.version <= i < |q.nodes| && q.nodes[i] == a
  }

  /** p is one of the first k + 1 nodes. */
  ghost predicate Upto(q: Shared, p: Addr, k: int) {
    exists i :: 0 <= i <= k && i < |q.nodes| && q.nodes[i] == p
  }

  /** vp passed vp_equal: its pointer is the node at its version. */
  ghost predicate Whole(q: Shared, vp: VersionedPointer, k: int) {
    vp.version <= k && vp.version < |q.nodes| && vp.ptr == q.nodes[vp.version]
  }

  /** vp was read one word at a time: its version is one the cell has had. */
  ghost predicate Torn(q: Shared, vp: VersionedPointer, cell: VersionedPointer) {
    vp.ptr in q.mem && vp.version <= cell.version
  }

  /** n is NULL, or what the next word of p holds. */
  ghost predicate NextRead(q: Shared, p: Addr, n: Addr) {
    n != NULL ==> n == NextOf(q, p).ptr
  }

  // What a thread has read through a pointer is worth something only if the cell has not swung since it read
  // the version: then the pointer is right as well.

  ghost predicate TailNext(q: Shared, th: Thread) {
    th.tail == q.tail ==> NextRead(q, q.tail.ptr, th.next.ptr)
  }

  ghost predicate TailBehind(q: Shared, th: Thread) {
    th.head == q.head && th.tail.ptr != th.head.ptr ==> q.head.version < q.tail.version
  }

  ghost predicate HeadNext(q: Shared, th: Thread) {
    th.head == q.head ==> NextRead(q, q.head.ptr, th.next.ptr) && (th.next.ptr == NULL ==> th.tail.ptr == th.head.ptr)
  }

  /** The pointer was confirmed by vp_equal's first load, and the second is to come. */
  ghost predicate Confirmed(vp: VersionedPointer, cell: VersionedPointer) {
    vp.version == cell.version ==> vp == cell
  }

  ghost predicate Takeable(q: Shared, th: Thread) {
    && Whole(q, th.head, q.head.version)
    && th.head.version < q.tail.version < |q.nodes|
    && th.next.ptr == q.nodes[th.head.version + 1]
  }

  /** The next word read may be linked behind the tail. */
  ghost predicate MayHelp(q: Shared, th: Thread) {
    && th.tail.version <= q.tail.version
    && (th.tail == q.tail ==> th.next.ptr != NULL && th.next.ptr == NextOf(q, q.tail.ptr).ptr)
  }

  /** The block is, or was, the dummy, and is not reused since. */
  ghost predicate WasHead(q: Shared, a: Addr) {
    exists i :: 0 <= i <= q.head.version && Names(q, a, i)
  }

  ghost predicate EnqueuerOk(q: Shared, th: Thread) {
    match th.pc
    case EnqTailVer => th.tail.ptr in q.mem
    case EnqNextPtr => Torn(q, th.tail, q.tail)
    case EnqNextVer | EnqCheckPtr => Torn(q, th.tail, q.tail) && TailNext(q, th)
    case EnqCheckVer => Torn(q, th.tail, q.tail) && TailNext(q, th) && Confirmed(th.tail, q.tail)
    case EnqLink =>
      && Whole(q, th.tail, q.tail.version) && th.next.ptr == NULL
      && (NextOf(q, th.tail.ptr) == th.next ==> Names(q, th.tail.ptr, th.tail.version))
    case EnqHelp => MayHelp(q, th)
    case EnqSwing =>
      Whole(q, th.tail, q.tail.version) && th.tail.version + 1 < |q.nodes| && q.nodes[th.tail.version + 1] == th.node
    case EnqCount => Upto(q, th.node, q.tail.version)
    case _ => true
  }

  ghost predicate DequeuerOk(q: Shared, th: Thread) {
    match th.pc
    case DeqHeadVer => th.head.ptr in q.mem
    case DeqTailPtr => Torn(q, th.head, q.head)
    case DeqTailVer => Torn(q, th.head, q.head) && TailBehind(q, th)
    case DeqNextPtr => Torn(q, th.head, q.head) && TailBehind(q, th) && th.tail.version <= q.tail.version
    case DeqNextVer | DeqCheckPtr =>
      Torn(q, th.head, q.head) && TailBehind(q, th) && th.tail.version <= q.tail.version && HeadNext(q, th)
    case DeqCheckVer =>
      && Torn(q, th.head, q.head) && TailBehind(q, th) && th.tail.version <= q.tail.version && HeadNext(q, th)
      && Confirmed(th.head, q.head)
    case DeqHelp => MayHelp(q, th)
    case DeqData => Takeable(q, th)
    case DeqSwing =>
      && Takeable(q, th) && th.head.version + 1 < |q.values|
      && (q.head.version == th.head.version ==> th.data == q.values[th.head.version + 1])
    case DeqCount | DeqFree =>
      && Whole(q, th.head, q.head.version - 1) && th.head.version + 1 < |q.values|
      && th.data == q.values[th.head.version + 1]
    case EmpNextPtr => th.head.ptr in q.mem && (NextOf(q, th.head.ptr).ptr == NULL ==> WasHead(q, th.head.ptr))
    case _ => true
  }

  ghost predicate Locals(q: Shared, threads: seq<Thread>) {
    forall t :: 0 <= t < |threads| ==> EnqueuerOk(q, threads[t]) && DequeuerOk(q, threads[t])
  }

  /** The thread's node is allocated but not linked yet. */
  predicate HasPrivate(th: Thread) {
    InEnqueue(th.pc) && !th.pc.EnqSwing? && !th.pc.EnqCount?
  }

  /** The thread has unlinked a dummy it has not freed yet. */
  predicate MustFree(th: Thread) {
    th.pc.DeqCount? || th.pc.DeqFree?
  }

  ghost predicate Private(q: Shared, th: Thread) {
    th.node in q.mem && q.mem[th.node] == Node(NIL, th.data) && !InQueue(q, th.node) && th.node !in q.freed
  }

  /** A block an enqueuer has not linked yet is its own. */
  ghost predicate PrivateBlocks(q: Shared, threads: seq<Thread>) {
    && (forall t :: 0 <= t < |threads| && HasPrivate(threads[t]) ==> Private(q, threads[t]))
    && (forall t, u :: 0 <= t < u < |threads| && HasPrivate(threads[t]) && HasPrivate(threads[u])
          ==> threads[t].node != threads[u].node)
  }

  /** A dequeued dummy that is not freed yet is one dequeuer's to free, and no other's. */
  ghost predicate PendingBlocks(q: Shared, threads: seq<Thread>) {
    && (forall t :: 0 <= t < |threads| && MustFree(threads[t]) ==>
          threads[t].head.ptr in q.mem && threads[t].head.ptr !in q.freed && !InQueue(q, threads[t].head.ptr))
    && (forall t, u :: 0 <= t < u < |threads| && MustFree(threads[t]) && MustFree(threads[u])
          ==> threads[t].head.ptr != threads[u].head.ptr)
  }

  /** A block to free is no block to link. */
  ghost predicate Apart(threads: seq<Thread>) {
    forall t, u :: 0 <= t < |threads| && 0 <= u < |threads| && HasPrivate(threads[t]) && MustFree(threads[u])
      ==> threads[t].node != threads[u].head.ptr
  }

  /** Blocks of the queue are not freed and hold their values. */
  ghost predicate QueueBlocks(q: Shared) {
    && (forall i :: q.head.version <= i < |q.nodes| ==> q.nodes[i] !in q.freed)
    && (forall i :: q.head.version < i < |q.nodes| && i < |q.values| ==> DataOf(q, q.nodes[i]) == q.values[i])
    && q.freed <= q.mem.Keys
  }

  ghost predicate Pending(threads: seq<Thread>, a: Addr) {
    exists t :: 0 <= t < |threads| && MustFree(threads[t]) && threads[t].head.ptr == a
  }

  ghost predicate Claimed(threads: seq<Thread>, a: Addr) {
    exists t :: 0 <= t < |threads| && HasPrivate(threads[t]) && threads[t].node == a
  }

  /** No block is lost. */
  ghost predicate NoLeak(q: Shared, threads: seq<Thread>) {
    forall a :: a in q.mem ==> InQueue(q, a) || a in q.freed || Pending(threads, a) || Claimed(threads, a)
  }

  ghost predicate Blocks(q: Shared, threads: seq<Thread>) {
    && PrivateBlocks(q, threads) && PendingBlocks(q, threads) && Apart(threads)
    && QueueBlocks(q) && NoLeak(q, threads)
  }

  ghost predicate Safe(q: Shared, threads: seq<Thread>) {
    Shape(q) && Locals(q, threads) && Blocks(q, threads)
  }

  // ---- steps of the other threads -----------------------------------------------------------

  /** How the shared part may move: positions and blocks are only gained. */
  ghost predicate Grows(q: Shared, q': Shared) {
    && |q.nodes| <= |q'.nodes| && |q.values| <= |q'.values| && q.mem.Keys <= q'.mem.Keys
    && (forall i :: 0 <= i < |q.nodes| ==> q'.nodes[i] == q.nodes[i])
    && (forall i :: 0 <= i < |q.values| ==> q'.values[i] == q.values[i])
    && q.head.version <= q'.head.version && q.tail.version <= q'.tail.version
  }

  /** The step does not reuse the block. */
  ghost predicate Stays(q: Shared, q': Shared, a: Addr) {
    && (forall i {:trigger Names(q, a, i)} {:trigger Names(q', a, i)} :: Names(q, a, i) ==> Names(q', a, i))
    && (NextOf(q', a).ptr == NULL ==> NextOf(q', a) == NextOf(q, a))
  }

  lemma NextOfNode(q: Shared, i: nat)
    requires Shape(q) && q.head.version <= i < |q.nodes|
    ensures NextOf(q, q.nodes[i]) == NextAt(q, i) && Names(q, q.nodes[i], i)
    ensures NextOf(q, q.nodes[i]).ptr == NULL <==> i + 1 == |q.nodes|
  {
    assert NextAt(q, i) == NextAt(q, i);
  }

  /** While head and tail stand still, a next word behind them that is not NULL keeps its value. */
  lemma CellsKeep(q: Shared, q': Shared)
    requires Shape(q) && Shape(q') && Grows(q, q')
    ensures q.tail.version == q'.tail.version ==>
      q'.tail == q.tail && (NextOf(q, q.tail.ptr).ptr != NULL ==> NextOf(q', q.tail.ptr) == NextOf(q, q.tail.ptr))
    ensures q.head.version == q'.head.version ==>
      q'.head == q.head && (NextOf(q, q.head.ptr).ptr != NULL ==> NextOf(q', q.head.ptr) == NextOf(q, q.head.ptr))
  {
    NextOfNode(q, q.tail.version);
    NextOfNode(q', q'.tail.version);
    NextOfNode(q, q.head.version);
    NextOfNode(q', q'.head.version);
  }

  lemma UptoStable(q: Shared, q': Shared, p: Addr, k: int, k': int)
    requires Grows(q, q') && k <= k' && Upto(q, p, k)
    ensures Upto(q', p, k')
  {
    var i :| 0 <= i <= k && i < |q.nodes| && q.nodes[i] == p;
    assert q'.nodes[i] == p;
  }

  lemma EnqueuerStable(q: Shared, q': Shared, th: Thread)
    requires Shape(q) && Shape(q') && Grows(q, q') && EnqueuerOk(q, th)
    requires th.pc.EnqLink? && NextOf(q', th.tail.ptr) == th.next ==> Stays(q, q', th.tail.ptr)
    ensures EnqueuerOk(q', th)
  {
    CellsKeep(q, q');
    if th.pc.EnqCount? {
      UptoStable(q, q', th.node, q.tail.version, q'.tail.version);
    } else if th.pc.EnqLink? && NextOf(q', th.tail.ptr) == th.next {
      assert Names(q, th.tail.ptr, th.tail.version);
    }
  }

  lemma DequeuerStable(q: Shared, q': Shared, th: Thread)
    requires Shape(q) && Shape(q') && Grows(q, q') && DequeuerOk(q, th)
    requires th.pc.EmpNextPtr? && NextOf(q', th.head.ptr).ptr == NULL ==> Stays(q, q', th.head.ptr)
    ensures DequeuerOk(q', th)
  {
    CellsKeep(q, q');
    if th.pc.EmpNextPtr? && NextOf(q', th.head.ptr).ptr == NULL {
      var i :| 0 <= i <= q.head.version && Names(q, th.head.ptr, i);
      assert Names(q', th.head.ptr, i);
    }
  }

  lemma LocalStable(q: Shared, q': Shared, th: Thread)
    requires Shape(q) && Shape(q') && Grows(q, q') && EnqueuerOk(q, th) && DequeuerOk(q, th)
    requires forall a :: Misled(th, a, NextOf(q', a)) ==> Stays(q, q', a)
    ensures EnqueuerOk(q', th) && DequeuerOk(q', th)
  {
    assert th.pc.EnqLink? && NextOf(q', th.tail.ptr) == th.next ==> Misled(th, th.tail.ptr, NextOf(q', th.tail.ptr));
    assert th.pc.EmpNextPtr? && NextOf(q', th.head.ptr).ptr == NULL ==>
      Misled(th, th.head.ptr, NextOf(q', th.head.ptr));
    EnqueuerStable(q, q', th);
    DequeuerStable(q, q', th);
  }

  /** What the other threads know survives the step. */
  lemma LocalsStable(q: Shared, q': Shared, threads: seq<Thread>, t: Tid, th': Thread)
    requires Shape(q) && Locals(q, threads) && Shape(q') && Grows(q, q')
    requires forall u, a :: 0 <= u < |threads| && u != t && Misled(threads[u], a, NextOf(q', a)) ==> Stays(q, q', a)
    requires t < |threads| && EnqueuerOk(q', th') && DequeuerOk(q', th')
    ensures Locals(q', threads[t := th'])
  {
    forall u | 0 <= u < |threads| && u != t
      ensures EnqueuerOk(q', threads[u]) && DequeuerOk(q', threads[u])
    {
      LocalStable(q, q', threads[u]);
    }
  }

  lemma LocalsUpdate(q: Shared, threads: seq<Thread>, t: Tid, th': Thread)
    requires t < |threads| && Locals(q, threads) && EnqueuerOk(q, th') && DequeuerOk(q, th')
    ensures Locals(q, threads[t := th'])
  {
  }

  // ---- steps that change only the thread that takes them --------------------------------------

  /** The step keeps the blocks the thread answers for. */
  ghost predicate SameDuties(th: Thread, th': Thread) {
    && HasPrivate(th') == HasPrivate(th) && (HasPrivate(th) ==> th'.node == th.node && th'.data == th.data)
    && MustFree(th') == MustFree(th) && (MustFree(th) ==> th'.head == th.head)
  }

  lemma ClaimsStable(threads: seq<Thread>, t: Tid, th': Thread, a: Addr)
    requires t < |threads|
    ensures Claimed(threads, a) && (HasPrivate(threads[t]) && threads[t].node == a ==> HasPrivate(th') && th'.node == a)
            ==> Claimed(threads[t := th'], a)
    ensures Pending(threads, a)
            && (MustFree(threads[t]) && threads[t].head.ptr == a ==> MustFree(th') && th'.head.ptr == a)
            ==> Pending(threads[t := th'], a)
  {
    var threads' := threads[t := th'];
    if Claimed(threads, a) {
      var u :| 0 <= u < |threads| && HasPrivate(threads[u]) && threads[u].node == a;
      assert u != t ==> HasPrivate(threads'[u]) && threads'[u].node == a;
      assert threads'[t] == th';
    }
    if Pending(threads, a) {
      var u :| 0 <= u < |threads| && MustFree(threads[u]) && threads[u].head.ptr == a;
      assert u != t ==> MustFree(threads'[u]) && threads'[u].head.ptr == a;
      assert threads'[t] == th';
    }
  }

  lemma NoLeakStable(q: Shared, threads: seq<Thread>, t: Tid, th': Thread)
    requires t < |threads| && NoLeak(q, threads) && SameDuties(threads[t], th')
    ensures NoLeak(q, threads[t := th'])
  {
    forall a ensures Claimed(threads, a) ==> Claimed(threads[t := th'], a)
             ensures Pending(threads, a) ==> Pending(threads[t := th'], a) {
      ClaimsStable(threads, t, th', a);
    }
  }

  lemma BlocksStable(q: Shared, threads: seq<Thread>, t: Tid, th': Thread)
    requires t < |threads| && Blocks(q, threads) && SameDuties(threads[t], th')
    ensures Blocks(q, threads[t := th'])
  {
    NoLeakStable(q, threads, t, th');
  }

  /** A step that changes only the thread that takes it. */
  lemma LocalMove(q: Shared, threads: seq<Thread>, t: Tid, th': Thread)
    requires Safe(q, threads) && t < |threads| && SameDuties(threads[t], th')
    requires EnqueuerOk(q, th') && DequeuerOk(q, th')
    ensures Safe(q, threads[t := th'])
  {
    BlocksStable(q, threads, t, th');
    LocalsUpdate(q, threads, t, th');
  }

  /** Two live positions with the same block are the same. */
  lemma SamePosition(q: Shared, i: nat, j: nat)
    requires Shape(q) && q.head.version <= i < |q.nodes| && q.head.version <= j < |q.nodes| && q.nodes[i] == q.nodes[j]
    ensures i == j
  {
  }

  /** Steps that change nothing shared. */
  predicate EnqueueLoad(pc: Pc) {
    || pc.EnqTailPtr? || pc.EnqTailVer? || pc.EnqNextPtr? || pc.EnqNextVer? || pc.EnqCheckPtr?
    || pc.EnqCheckVer?
  }

  predicate DequeueLoad(pc: Pc) {
    || pc.DeqHeadPtr? || pc.DeqHeadVer? || pc.DeqTailPtr? || pc.DeqTailVer? || pc.DeqNextPtr?
    || pc.DeqNextVer?
  }

  lemma EnqueueLoads(q: Shared, th: Thread, t: Tid, now: nat)
    requires Shape(q) && EnqueuerOk(q, th) && EnqueueLoad(th.pc)
    ensures var m := EnqueueMove(q, th, t, now);
      m.q == q && EnqueuerOk(q, m.th) && DequeuerOk(q, m.th) && SameDuties(th, m.th)
  {
    NextOfNode(q, q.tail.version);
  }

  lemma DequeueLoads(q: Shared, th: Thread, t: Tid, now: nat, junk: Data)
    requires Shape(q) && DequeuerOk(q, th) && DequeueLoad(th.pc)
    ensures var m := DequeueMove(q, th, t, now, junk);
      m.q == q && EnqueuerOk(q, m.th) && DequeuerOk(q, m.th) && SameDuties(th, m.th)
  {
    NextOfNode(q, q.head.version);
  }

  lemma DequeueChecks(q: Shared, th: Thread, t: Tid, now: nat, junk: Data)
    requires Shape(q) && DequeuerOk(q, th) && (th.pc.DeqCheckPtr? || th.pc.DeqCheckVer?)
    ensures var m := DequeueMove(q, th, t, now, junk);
      m.q == q && EnqueuerOk(q, m.th) && DequeuerOk(q, m.th) && SameDuties(th, m.th)
  {
    NextOfNode(q, q.head.version);
    if th.pc.DeqCheckVer? && th.head == q.head && th.tail == q.tail && th.head.ptr == th.tail.ptr {
      SamePosition(q, q.head.version, q.tail.version);
    }
  }

  lemma DequeueTakes(q: Shared, th: Thread, t: Tid, now: nat, junk: Data)
    requires Shape(q) && QueueBlocks(q) && DequeuerOk(q, th) && (th.pc.DeqData? || th.pc.DeqCount?)
    ensures var m := DequeueMove(q, th, t, now, junk);
      m.q == q && EnqueuerOk(q, m.th) && DequeuerOk(q, m.th) && SameDuties(th, m.th)
  {
  }

  lemma EmptyLoads(q: Shared, th: Thread, now: nat)
    requires Shape(q) && DequeuerOk(q, th) && InEmpty(th.pc)
    ensures var m := EmptyMove(q, th, now);
      m.q == q && EnqueuerOk(q, m.th) && DequeuerOk(q, m.th) && SameDuties(th, m.th)
  {
    NextOfNode(q, q.head.version);
  }
}
