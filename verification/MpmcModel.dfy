/** The Michael-Scott queue of mpmc_queue.h as a shared-memory step machine: every load, store or
    locked instruction on shared memory is one step, and any thread may take the next step. */
module MpmcModel {
  import opened VersionedPointers

  type Tid = nat
  type Data = nat

  /** struct mpmcq_node */
  datatype Node = Node(next: VersionedPointer, data: Data)

  /** The next instruction of a thread, named by the function it is in and the word it touches. */
  datatype Pc =
    | Idle
      // mpmc_enqueue
    | EnqTailPtr | EnqTailVer | EnqNextPtr | EnqNextVer | EnqCheckPtr | EnqCheckVer
    | EnqLink | EnqHelp | EnqSwing | EnqCount
      // mpmc_dequeue
    | DeqHeadPtr | DeqHeadVer | DeqTailPtr | DeqTailVer | DeqNextPtr | DeqNextVer
    | DeqCheckPtr | DeqCheckVer | DeqHelp | DeqData | DeqSwing | DeqCount | DeqFree
      // mpmc_queue_empty
    | EmpHeadPtr | EmpNextPtr

  /** A thread's locals. The last four fields are bookkeeping the program does not have:
      when the call began, the event at which it took effect, how many loop passes went round again
      so far, and the value of Wins when the pass in progress began. */
  datatype Thread = Thread(
    pc: Pc, node: Addr, data: Data,
    head: VersionedPointer, tail: VersionedPointer, next: VersionedPointer,
    start: nat, lin: nat, fails: nat, mark: int)

  /** The queue and the heap. The last two fields are history: every node ever linked, in link
      order, and the value stored with it. */
  datatype Shared = Shared(
    head: VersionedPointer, tail: VersionedPointer, mem: map<Addr, Node>, freed: set<Addr>,
    nodes: seq<Addr>, values: seq<Data>)

  /** What one event does to the abstract queue. */
  datatype Effect = Silent | Put(tid: Tid, value: Data) | Take(tid: Tid, value: Data)

  datatype Answer = NotYet | Enqueued(value: Data) | Dequeued(value: Data) | FoundEmpty | SaidEmpty(empty: bool)

  /** A completed call: it began with event number start and returned with event number end - 1. */
  datatype Call = Call(tid: Tid, answer: Answer, start: nat, lin: nat, end: nat)

  /** The last three fields are history: what each event did to the abstract queue, the abstract
      queue before the first and after every event, and the calls that have returned. */
  datatype State = State(
    q: Shared, len: int, threads: seq<Thread>,
    log: seq<Effect>, hist: seq<seq<Data>>, calls: seq<Call>)

  /** block is what MCT_MALLOC returns, and junk what MCT_FREE leaves in the user_data word of a block it takes
      back. Overwrite is anything that happens to a freed block outside the queue: the allocator keeps its
      lists in it, or gives it to another part of the program for a while. */
  datatype Event =
    | CallEnqueue(t: Tid, value: Data, block: Addr)
    | CallDequeue(t: Tid)
    | CallEmpty(t: Tid)
    | Overwrite(t: Tid, block: Addr, contents: Node)
    | Step(t: Tid, junk: Data)

  const NIL := VersionedPointer(NULL, 0)
  const RESTING := Thread(Idle, NULL, 0, NIL, NIL, NIL, 0, 0, 0, 0)

  /** mpmc_queue_init, called before any other thread can see the queue. */
  function Init(n: nat, dummy: Addr, garbage: Data): State {
    State(Shared(VersionedPointer(dummy, 0), VersionedPointer(dummy, 0), map[dummy := Node(NIL, garbage)], {},
                 [dummy], [garbage]),
          0, seq(n, _ => RESTING), [], [[]], [])
  }

  /** The queue the program stands for: the values behind the current dummy. */
  function Abs(q: Shared): seq<Data> {
    if q.head.version < |q.values| then q.values[q.head.version + 1..] else []
  }

  /** The number of DCAS instructions that have succeeded: links, tail swings and head swings. */
  function Wins(q: Shared): int {
    |q.nodes| - 1 + q.tail.version + q.head.version
  }

  function NextOf(q: Shared, a: Addr): VersionedPointer {
    if a in q.mem then q.mem[a].next else NIL
  }

  function DataOf(q: Shared, a: Addr): Data {
    if a in q.mem then q.mem[a].data else 0
  }

  // ---- what the locked instructions and the allocator do to the shared part --------------------

  /** double_cmp_and_swap on q->tail. */
  function DcasTail(q: Shared, cmp: VersionedPointer, swap: VersionedPointer): Shared {
    if q.tail == cmp then q.(tail := swap) else q
  }

  /** double_cmp_and_swap on q->head. */
  function DcasHead(q: Shared, cmp: VersionedPointer, swap: VersionedPointer): Shared {
    if q.head == cmp then q.(head := swap) else q
  }

  /** double_cmp_and_swap on the next word of the node at a, linking block behind it. */
  function DcasNext(q: Shared, a: Addr, cmp: VersionedPointer, swap: VersionedPointer, value: Data): Shared {
    if NextOf(q, a) == cmp then
      q.(mem := q.mem[a := Node(swap, DataOf(q, a))], nodes := q.nodes + [swap.ptr], values := q.values + [value])
    else q
  }

  /** MCT_FREE */
  function Free(q: Shared, a: Addr, junk: Data): Shared {
    q.(mem := q.mem[a := Node(NextOf(q, a), junk)], freed := q.freed + {a})
  }

  /** MCT_MALLOC, with a new block or one taken back before, and the stores of lines 134-136. */
  function Alloc(q: Shared, a: Addr, value: Data): Shared {
    q.(mem := q.mem[a := Node(NIL, value)], freed := q.freed - {a})
  }

  // ---- one thread's move -------------------------------------------------------------------------

  /** What a step of one thread leads to. */
  datatype Move = Move(q: Shared, th: Thread, effect: Effect, count: int, answer: Answer)

  function Local(q: Shared, th: Thread): Move { Move(q, th, Silent, 0, NotYet) }

  /** The loop goes round again: the pass in progress failed. */
  function Again(q: Shared, th: Thread, pc: Pc): Move {
    Local(q, th.(pc := pc, fails := th.fails + 1, mark := Wins(q)))
  }

  function Return(q: Shared, th: Thread, count: int, answer: Answer): Move {
    Move(q, th.(pc := Idle), Silent, count, answer)
  }

  function EnqueueMove(q: Shared, th: Thread, t: Tid, now: nat): Move {
    match th.pc
    case EnqTailPtr => Local(q, th.(tail := th.tail.(ptr := q.tail.ptr), pc := EnqTailVer))
    case EnqTailVer => Local(q, th.(tail := th.tail.(version := q.tail.version), pc := EnqNextPtr))
    case EnqNextPtr => Local(q, th.(next := th.next.(ptr := NextOf(q, th.tail.ptr).ptr), pc := EnqNextVer))
    case EnqNextVer => Local(q, th.(next := th.next.(version := NextOf(q, th.tail.ptr).version), pc := EnqCheckPtr))
    case EnqCheckPtr =>
      if th.tail.ptr == q.tail.ptr then Local(q, th.(pc := EnqCheckVer)) else Again(q, th, EnqTailPtr)
    case EnqCheckVer =>
      if th.tail.version != q.tail.version then Again(q, th, EnqTailPtr)
      else if th.next.ptr == NULL then Local(q, th.(pc := EnqLink))
      else Local(q, th.(pc := EnqHelp))
    case EnqLink =>
      var q' := DcasNext(q, th.tail.ptr, th.next, VersionedPointer(th.node, th.next.version + 1), th.data);
      if NextOf(q, th.tail.ptr) == th.next then
        Move(q', th.(pc := EnqSwing, lin := now), Put(t, th.data), 0, NotYet)
      else
        Again(q', th.(next := NextOf(q, th.tail.ptr)), EnqTailPtr)
    case EnqHelp =>
      Again(DcasTail(q, th.tail, VersionedPointer(th.next.ptr, th.tail.version + 1)), th.(tail := q.tail), EnqTailPtr)
    case EnqSwing =>
      Local(DcasTail(q, th.tail, VersionedPointer(th.node, th.tail.version + 1)), th.(tail := q.tail, pc := EnqCount))
    case EnqCount => Return(q, th, 1, Enqueued(th.data))
    case _ => Local(q, th)
  }

  function DequeueMove(q: Shared, th: Thread, t: Tid, now: nat, junk: Data): Move {
    match th.pc
    case DeqHeadPtr => Local(q, th.(head := th.head.(ptr := q.head.ptr), pc := DeqHeadVer))
    case DeqHeadVer => Local(q, th.(head := th.head.(version := q.head.version), pc := DeqTailPtr))
    case DeqTailPtr => Local(q, th.(tail := th.tail.(ptr := q.tail.ptr), pc := DeqTailVer))
    case DeqTailVer => Local(q, th.(tail := th.tail.(version := q.tail.version), pc := DeqNextPtr))
    case DeqNextPtr =>
      Local(q, th.(next := th.next.(ptr := NextOf(q, th.head.ptr).ptr), pc := DeqNextVer, lin := now))
    case DeqNextVer => Local(q, th.(next := th.next.(version := NextOf(q, th.head.ptr).version), pc := DeqCheckPtr))
    case DeqCheckPtr =>
      if th.head.ptr == q.head.ptr then Local(q, th.(pc := DeqCheckVer)) else Again(q, th, DeqHeadPtr)
    case DeqCheckVer =>
      if th.head.version != q.head.version then Again(q, th, DeqHeadPtr)
      else if th.head.ptr != th.tail.ptr then Local(q, th.(pc := DeqData))
      else if th.next.ptr == NULL then Return(q, th, 0, FoundEmpty)
      else Local(q, th.(pc := DeqHelp))
    case DeqHelp =>
      Again(DcasTail(q, th.tail, VersionedPointer(th.next.ptr, th.tail.version + 1)), th.(tail := q.tail), DeqHeadPtr)
    case DeqData => Local(q, th.(data := DataOf(q, th.next.ptr), pc := DeqSwing))
    case DeqSwing =>
      var q' := DcasHead(q, th.head, VersionedPointer(th.next.ptr, th.head.version + 1));
      if q.head == th.head then
        Move(q', th.(pc := DeqCount, lin := now), Take(t, th.data), 0, NotYet)
      else
        Again(q', th.(head := q.head), DeqHeadPtr)
    case DeqCount => Move(q, th.(pc := DeqFree), Silent, -1, NotYet)
    case DeqFree => Return(Free(q, th.head.ptr, junk), th, 0, Dequeued(th.data))
    case _ => Local(q, th)
  }

  function EmptyMove(q: Shared, th: Thread, now: nat): Move {
    match th.pc
    case EmpHeadPtr => Local(q, th.(head := th.head.(ptr := q.head.ptr), pc := EmpNextPtr))
    case EmpNextPtr => Return(q, th.(lin := now), 0, SaidEmpty(NextOf(q, th.head.ptr).ptr == NULL))
    case _ => Local(q, th)
  }

  predicate InEnqueue(pc: Pc) {
    || pc.EnqTailPtr? || pc.EnqTailVer? || pc.EnqNextPtr? || pc.EnqNextVer? || pc.EnqCheckPtr?
    || pc.EnqCheckVer? || pc.EnqLink? || pc.EnqHelp? || pc.EnqSwing? || pc.EnqCount?
  }

  predicate InEmpty(pc: Pc) {
    pc.EmpHeadPtr? || pc.EmpNextPtr?
  }

  /** The next step of a thread that is inside a call. */
  function StepMove(q: Shared, th: Thread, t: Tid, now: nat, junk: Data): Move {
    if InEnqueue(th.pc) then EnqueueMove(q, th, t, now)
    else if InEmpty(th.pc) then EmptyMove(q, th, now)
    else DequeueMove(q, th, t, now, junk)
  }

  /** A call begins, or a freed block is overwritten. The node of an enqueue is private until it is linked, so
      lines 130-136, which allocate and fill it, are one step. */
  function CallMove(q: Shared, th: Thread, e: Event, now: nat): Move {
    var th1 := th.(start := now, mark := Wins(q));
    match e
    case CallEnqueue(_, value, block) =>
      Local(Alloc(q, block, value), th1.(pc := EnqTailPtr, node := block, data := value))
    case CallDequeue(_) => Local(q, th1.(pc := DeqHeadPtr))
    case CallEmpty(_) => Local(q, th1.(pc := EmpHeadPtr))
    case Overwrite(_, block, contents) => Local(q.(mem := q.mem[block := contents]), th)
    case Step(_, _) => Local(q, th)
  }

  function MoveOf(s: State, e: Event): Move
    requires e.t < |s.threads|
  {
    if e.Step? then StepMove(s.q, s.threads[e.t], e.t, |s.log|, e.junk)
    else CallMove(s.q, s.threads[e.t], e, |s.log|)
  }

  /** The thread has a pointer to the block that it will follow without looking at a version again, and would take
      the wrong turn if it found this next word there: an enqueuer before line 147 would link its node, and
      mpmc_queue_empty between its two loads would say that the queue is empty. */
  predicate Misled(th: Thread, a: Addr, next: VersionedPointer) {
    || (th.pc.EnqLink? && th.tail.ptr == a && th.next == next)
    || (th.pc.EmpNextPtr? && th.head.ptr == a && next.ptr == NULL)
  }

  /** The allocator may let this be written to the block: it was taken back, and no thread is misled. */
  predicate Reusable(s: State, a: Addr, next: VersionedPointer) {
    a in s.q.freed && forall t :: 0 <= t < |s.threads| ==> !Misled(s.threads[t], a, next)
  }

  predicate Begins(e: Event) {
    !e.Step? && !e.Overwrite?
  }

  /** What the callers and the allocator may do: a thread is in one call at a time, and MCT_MALLOC
      returns a block it never handed out before, or one that may be reused. */
  predicate Enabled(s: State, e: Event) {
    e.t < |s.threads|
    && (e.Step? <==> !s.threads[e.t].pc.Idle?)
    && (e.CallEnqueue? ==> e.block != NULL && (e.block !in s.q.mem || Reusable(s, e.block, NIL)))
    && (e.Overwrite? ==> Reusable(s, e.block, e.contents.next))
  }

  function Apply(s: State, e: Event): State
    requires e.t < |s.threads|
  {
    var m := MoveOf(s, e);
    State(m.q, s.len + m.count, s.threads[e.t := m.th],
          s.log + [m.effect], s.hist + [Abs(m.q)],
          if m.answer == NotYet then s.calls
          else s.calls + [Call(e.t, m.answer, m.th.start, m.th.lin, |s.log| + 1)])
  }
}
