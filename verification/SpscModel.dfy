/** The single-producer single-consumer queue of spsc_queue.h as a step machine on x86 memory: the
    producer's stores wait in a FIFO buffer and reach memory one by one, at any time. A run in which
    every store drains at once is a run on sequentially consistent memory. */
module SpscModel {

  type Addr = nat
  type Data = nat

  const NULL: Addr := 0

  /** struct spscq_node and the user structure around it. */
  datatype Node = Node(next: Addr, payload: Data)

  /** A store of the producer: to the next word of a node, to its payload, or to q->tail. */
  datatype Store = SetNext(at: Addr, next: Addr) | SetPayload(at: Addr, payload: Data) | SetTail(tail: Addr)

  /** The next instruction of the producer, in spsc_enqueue: lines 144, 148 (load), 148 (store), 150, 152. */
  datatype ProducerPc = Resting | InitNext | LoadTail | Link | StoreTail | AddOne

  /** The next instruction of the consumer, in spsc_dequeue: lines 166, 170, 178, 181, 183, or in
      spsc_queue_empty: the two loads of line 131. */
  datatype ConsumerPc = Idle | LoadHead | LoadNext | SubOne | StoreHead | HandOut | PeekHead | PeekNext

  datatype Producer = Producer(pc: ProducerPc, node: Addr, value: Data, tail: Addr)

  /** dead is the head loaded last, empty the answer of the last spsc_queue_empty. */
  datatype Consumer = Consumer(pc: ConsumerPc, dead: Addr, next: Addr, empty: bool)

  /** counted is HAVE_Q_LEN. busy are the nodes in the queue's hands: enqueued or the dummy, and not yet
      handed out. The last six fields are history: the nodes from the head to the last one linked and
      their values, the values linked and the values returned so far, and the nodes returned and the
      nodes handed out to free. */
  datatype State = State(
    counted: bool, mem: map<Addr, Node>, head: Addr, tail: Addr, buffer: seq<Store>, len: int,
    producer: Producer, consumer: Consumer, busy: set<Addr>,
    chain: seq<Addr>, values: seq<Data>, sent: seq<Data>, taken: seq<Data>, returned: seq<Addr>, given: seq<Addr>)

  /** Enqueue is called with a node holding value; the store of value is the caller's, and the
      producer's. Scribble is anything the owner of a node outside the queue does to it. */
  datatype Event =
    | CallEnqueue(node: Addr, value: Data)
    | CallDequeue
    | CallEmpty
    | Produce
    | Consume
    | Drain
    | Scribble(node: Addr, junk: Node)

  /** spsc_queue_init */
  function Init(counted: bool, dummy: Addr, garbage: Data): State {
    State(counted, map[dummy := Node(NULL, garbage)], dummy, dummy, [], 0,
          Producer(Resting, NULL, 0, NULL), Consumer(Idle, NULL, NULL, true), {dummy},
          [dummy], [garbage], [], [], [], [])
  }

  function NextOf(mem: map<Addr, Node>, a: Addr): Addr {
    if a in mem then mem[a].next else NULL
  }

  function PayloadOf(mem: map<Addr, Node>, a: Addr): Data {
    if a in mem then mem[a].payload else 0
  }

  /** A store reaches memory. */
  function Land(mem: map<Addr, Node>, st: Store): map<Addr, Node> {
    match st
    case SetNext(a, next) => mem[a := Node(next, PayloadOf(mem, a))]
    case SetPayload(a, payload) => mem[a := Node(NextOf(mem, a), payload)]
    case SetTail(_) => mem
  }

  function LandTail(tail: Addr, st: Store): Addr {
    if st.SetTail? then st.tail else tail
  }

  /** What the producer itself sees: memory with its own stores on top. */
  function LandAll(mem: map<Addr, Node>, buffer: seq<Store>): map<Addr, Node>
    decreases |buffer|
  {
    if buffer == [] then mem else LandAll(Land(mem, buffer[0]), buffer[1..])
  }

  function TailSeen(tail: Addr, buffer: seq<Store>): Addr
    decreases |buffer|
  {
    if buffer == [] then tail else TailSeen(LandTail(tail, buffer[0]), buffer[1..])
  }

  /** The callers hand over only nodes that are theirs, and the two sides make one call at a time; whoever
      dequeues is also the one who asks whether the queue is empty. The locked instruction of line 152
      waits for the buffer to drain. */
  predicate Enabled(s: State, e: Event) {
    match e
    case CallEnqueue(node, _) => s.producer.pc.Resting? && node != NULL && node !in s.busy
    case CallDequeue => s.consumer.pc.Idle?
    case CallEmpty => s.consumer.pc.Idle?
    case Produce => !s.producer.pc.Resting? && (s.producer.pc.AddOne? ==> s.buffer == [])
    case Consume => !s.consumer.pc.Idle?
    case Drain => s.buffer != []
    case Scribble(node, _) => node != NULL && node !in s.busy
  }

  function ProduceMove(s: State): State {
    var p := s.producer;
    match p.pc
    case Resting => s
    case InitNext => s.(buffer := s.buffer + [SetNext(p.node, NULL)], producer := p.(pc := LoadTail))
    case LoadTail => s.(producer := p.(tail := TailSeen(s.tail, s.buffer), pc := Link))
    case Link =>
      s.(buffer := s.buffer + [SetNext(p.tail, p.node)], producer := p.(pc := StoreTail),
         chain := s.chain + [p.node], values := s.values + [p.value], sent := s.sent + [p.value])
    case StoreTail =>
      s.(buffer := s.buffer + [SetTail(p.node)], producer := p.(pc := if s.counted then AddOne else Resting))
    case AddOne => s.(len := s.len + 1, producer := p.(pc := Resting))
  }

  function ConsumeMove(s: State): State {
    var c := s.consumer;
    match c.pc
    case Idle => s
    case LoadHead => s.(consumer := c.(dead := s.head, pc := LoadNext))
    case LoadNext =>
      var next := NextOf(s.mem, c.dead);
      if next == NULL then s.(consumer := c.(pc := Idle))
      else s.(consumer := c.(next := next, pc := if s.counted then SubOne else StoreHead))
    case SubOne => s.(len := s.len - 1, consumer := c.(pc := StoreHead))
    case StoreHead =>
      s.(head := c.next, consumer := c.(pc := HandOut),
         chain := if s.chain == [] then [] else s.chain[1..], values := if s.values == [] then [] else s.values[1..])
    case HandOut =>
      s.(consumer := c.(pc := Idle), busy := s.busy - {c.dead},
         taken := s.taken + [PayloadOf(s.mem, c.next)], returned := s.returned + [c.next], given := s.given + [c.dead])
    case PeekHead => s.(consumer := c.(dead := s.head, pc := PeekNext))
    case PeekNext => s.(consumer := c.(empty := NextOf(s.mem, c.dead) == NULL, pc := Idle))
  }

  function Apply(s: State, e: Event): State {
    match e
    case CallEnqueue(node, value) =>
      s.(buffer := s.buffer + [SetPayload(node, value)], busy := s.busy + {node},
         producer := s.producer.(pc := InitNext, node := node, value := value))
    case CallDequeue => s.(consumer := s.consumer.(pc := LoadHead))
    case CallEmpty => s.(consumer := s.consumer.(pc := PeekHead))
    case Produce => ProduceMove(s)
    case Consume => ConsumeMove(s)
    case Drain =>
      if s.buffer == [] then s
      else s.(mem := Land(s.mem, s.buffer[0]), tail := LandTail(s.tail, s.buffer[0]), buffer := s.buffer[1..])
    case Scribble(node, junk) => s.(mem := s.mem[node := junk])
  }

  predicate Admissible(s: State, es: seq<Event>)
    decreases |es|
  {
    es == [] || (Enabled(s, es[0]) && Admissible(Apply(s, es[0]), es[1..]))
  }

  function Exec(s: State, es: seq<Event>): State
    decreases |es|
  {
    if es == [] then s else Exec(Apply(s, es[0]), es[1..])
  }
}
