/** The MCS queue lock of mcs_lock.h as a shared-memory step machine: every load, store or locked
    instruction on the lock or on a node is one step, and any thread may take the next step. */
module McsModel {

  type NodeId = nat
  type Tid = nat

  const NULL: NodeId := 0

  /** struct _mcslock_node */
  datatype LockNode = LockNode(next: NodeId, wait: bool)

  /** The next instruction of a thread. Holding is the caller's critical section. */
  datatype Pc =
    | Idle
    | LockNext | LockWait | LockSwap | LockLink | LockSpin      // mcs_lock, lines 33, 34, 37, 44, 46
    | TrySwap                                                   // mcs_trylock, line 84
    | Holding
    | UnlockPeek | UnlockSwap | UnlockSpin | UnlockLoad | UnlockWake   // mcs_unlock, lines 54, 60, 66, 78, 78

  /** node is the mynode argument, pre the local of mcs_lock, succ the next pointer loaded in line 78. */
  datatype Thread = Thread(pc: Pc, node: NodeId, pre: NodeId, succ: NodeId)

  /** tail and nodes are the program's memory. queue is the history the proofs need: the threads from
      the holder, or the one about to wake, to the last requester. served are those that have
      released, requests those that have swapped themselves in, granted those that have acquired. */
  datatype State = State(
    tail: NodeId, nodes: map<NodeId, LockNode>, threads: seq<Thread>,
    queue: seq<Tid>, served: seq<Tid>, requests: seq<Tid>, granted: seq<Tid>)

  /** Scribble is what happens to a node no call has: its stack frame is reused, or it is new. */
  datatype Event =
    | CallLock(t: Tid, node: NodeId)
    | CallTry(t: Tid, node: NodeId)
    | CallUnlock(t: Tid)
    | Step(t: Tid)
    | Scribble(node: NodeId, junk: LockNode)

  const RESTING := Thread(Idle, NULL, NULL, NULL)

  /** mcs_lock_init; the nodes hold anything. */
  function Init(n: nat, nodes: map<NodeId, LockNode>): State {
    State(NULL, nodes, seq(n, _ => RESTING), [], [], [], [])
  }

  predicate InUse(s: State, node: NodeId) {
    exists t :: 0 <= t < |s.threads| && !s.threads[t].pc.Idle? && s.threads[t].node == node
  }

  predicate Usable(s: State, t: Tid, node: NodeId) {
    t < |s.threads| && s.threads[t].pc.Idle? && node != NULL && node in s.nodes && !InUse(s, node)
  }

  /** The callers: one call at a time and a node that no other call has; a lock is released by its
      holder, with the node it was acquired with. */
  predicate Enabled(s: State, e: Event) {
    match e
    case CallLock(t, node) => Usable(s, t, node)
    case CallTry(t, node) => Usable(s, t, node)
    case CallUnlock(t) => t < |s.threads| && s.threads[t].pc.Holding?
    case Step(t) => t < |s.threads| && !s.threads[t].pc.Idle? && !s.threads[t].pc.Holding?
    case Scribble(node, _) => node != NULL && !InUse(s, node)
  }

  /** mcs_trylock does not initialise the node, so a caller must bring one whose next is NULL. */
  predicate Prepared(s: State, e: Event) {
    e.CallTry? && e.node in s.nodes ==> s.nodes[e.node].next == NULL
  }

  function NextOf(s: State, node: NodeId): NodeId {
    if node in s.nodes then s.nodes[node].next else NULL
  }

  function WaitOf(s: State, node: NodeId): bool {
    node in s.nodes && s.nodes[node].wait
  }

  function SetNext(s: State, node: NodeId, next: NodeId): State {
    s.(nodes := s.nodes[node := LockNode(next, WaitOf(s, node))])
  }

  function SetWait(s: State, node: NodeId, wait: bool): State {
    s.(nodes := s.nodes[node := LockNode(NextOf(s, node), wait)])
  }

  function Goto(s: State, t: Tid, th: Thread): State
    requires t < |s.threads|
  {
    s.(threads := s.threads[t := th])
  }

  /** t has swapped itself into the tail. */
  function Join(s: State, t: Tid): State {
    s.(queue := s.queue + [t], requests := s.requests + [t])
  }

  function Acquire(s: State, t: Tid): State {
    s.(granted := s.granted + [t])
  }

  function Leave(s: State, t: Tid): State {
    s.(queue := if s.queue == [] then [] else s.queue[1..], served := s.served + [t])
  }

  function LockMove(s: State, t: Tid): State
    requires t < |s.threads|
  {
    var th := s.threads[t];
    match th.pc
    case LockNext => Goto(SetNext(s, th.node, NULL), t, th.(pc := LockWait))
    case LockWait => Goto(SetWait(s, th.node, true), t, th.(pc := LockSwap))
    case LockSwap =>
      var s' := Join(s, t).(tail := th.node);
      if s.tail == NULL then Acquire(Goto(s', t, th.(pre := s.tail, pc := Holding)), t)
      else Goto(s', t, th.(pre := s.tail, pc := LockLink))
    case LockLink => Goto(SetNext(s, th.pre, th.node), t, th.(pc := LockSpin))
    case LockSpin => if WaitOf(s, th.node) then s else Acquire(Goto(s, t, th.(pc := Holding)), t)
    case TrySwap =>
      if s.tail == NULL then Acquire(Goto(Join(s, t).(tail := th.node), t, th.(pc := Holding)), t)
      else Goto(s, t, th.(pc := Idle))
    case _ => s
  }

  function UnlockMove(s: State, t: Tid): State
    requires t < |s.threads|
  {
    var th := s.threads[t];
    match th.pc
    case UnlockPeek => Goto(s, t, th.(pc := if NextOf(s, th.node) == NULL then UnlockSwap else UnlockLoad))
    case UnlockSwap =>
      if s.tail == th.node then Goto(Leave(s, t).(tail := NULL), t, th.(pc := Idle))
      else Goto(s, t, th.(pc := UnlockSpin))
    case UnlockSpin => if NextOf(s, th.node) == NULL then s else Goto(s, t, th.(pc := UnlockLoad))
    case UnlockLoad => Goto(s, t, th.(succ := NextOf(s, th.node), pc := UnlockWake))
    case UnlockWake => Goto(SetWait(Leave(s, t), th.succ, false), t, th.(pc := Idle))
    case _ => s
  }

  predicate InLock(pc: Pc) {
    pc.LockNext? || pc.LockWait? || pc.LockSwap? || pc.LockLink? || pc.LockSpin? || pc.TrySwap?
  }

  predicate InUnlock(pc: Pc) {
    pc.UnlockPeek? || pc.UnlockSwap? || pc.UnlockSpin? || pc.UnlockLoad? || pc.UnlockWake?
  }

  function Apply(s: State, e: Event): State
    requires e.Scribble? || e.t < |s.threads|
  {
    match e
    case CallLock(t, node) => Goto(s, t, s.threads[t].(pc := LockNext, node := node))
    case CallTry(t, node) => Goto(s, t, s.threads[t].(pc := TrySwap, node := node))
    case CallUnlock(t) => Goto(s, t, s.threads[t].(pc := UnlockPeek))
    case Step(t) => if InLock(s.threads[t].pc) then LockMove(s, t) else UnlockMove(s, t)
    case Scribble(node, junk) => s.(nodes := s.nodes[node := junk])
  }

  /** Every event of es may happen when it does. */
  predicate Possible(s: State, es: seq<Event>)
    decreases |es|
  {
    es == [] || (Enabled(s, es[0]) && Possible(Apply(s, es[0]), es[1..]))
  }

  /** And every trylock brings a prepared node. */
  predicate Admissible(s: State, es: seq<Event>)
    decreases |es|
  {
    es == [] || (Enabled(s, es[0]) && Prepared(s, es[0]) && Admissible(Apply(s, es[0]), es[1..]))
  }

  function Exec(s: State, es: seq<Event>): State
    requires Possible(s, es)
    decreases |es|
  {
    if es == [] then s else Exec(Apply(s, es[0]), es[1..])
  }
}
