/** What the single-producer single-consumer queue promises under delayed stores. */
module SpscTheorems {
  import opened SpscModel
  import opened SpscInvariant

  /** The producer has a node that is not linked yet. */
  predicate Preparing(pc: ProducerPc) {
    pc.InitNext? || pc.LoadTail? || pc.Link?
  }

  /** The chain: from the head to the last node linked, all of them in the queue's hands. */
  ghost predicate ChainOk(s: State) {
    && |s.chain| == |s.values| > 0 && s.chain[0] == s.head && s.head in s.mem
    && (forall i :: 0 <= i < |s.chain| ==> s.chain[i] != NULL && s.chain[i] in s.busy)
    && (forall i, j :: 0 <= i < j < |s.chain| ==> s.chain[i] != s.chain[j])
  }

  ghost predicate MemoryOk(s: State)
    requires |s.chain| == |s.values|
  {
    && AlwaysWalkable(s.mem, s.buffer, s.chain, s.values)
    && Linked(LandAll(s.mem, s.buffer), s.chain, s.values)
  }

  /** Stores on their way write to nodes of the chain or to the producer's own. */
  ghost predicate Targets(s: State) {
    forall i :: 0 <= i < |s.buffer| && !s.buffer[i].SetTail? ==>
      s.buffer[i].at in s.chain || (Preparing(s.producer.pc) && s.buffer[i].at == s.producer.node)
  }

  ghost predicate ProducerOk(s: State)
    requires |s.chain| > 0
  {
    var p, full := s.producer, LandAll(s.mem, s.buffer);
    && (Preparing(p.pc) ==>
          && p.node != NULL && p.node in s.busy && p.node !in s.chain
          && p.node in full && PayloadOf(full, p.node) == p.value)
    && (p.pc.LoadTail? || p.pc.Link? ==> NextOf(full, p.node) == NULL)
    && (p.pc.Link? ==> p.tail == s.chain[|s.chain| - 1])
    && (if p.pc.StoreTail? then p.node == s.chain[|s.chain| - 1]
        else TailSeen(s.tail, s.buffer) == s.chain[|s.chain| - 1])
    && (p.pc.AddOne? ==> s.counted)
  }

  ghost predicate ConsumerOk(s: State)
    requires |s.chain| == |s.values| > 0
  {
    var c := s.consumer;
    && (c.pc.LoadNext? || c.pc.PeekNext? ==> c.dead == s.head)
    && (c.pc.SubOne? || c.pc.StoreHead? ==> c.dead == s.head && c.next == NextOf(s.mem, s.head) != NULL)
    && (c.pc.HandOut? ==>
          && c.dead != NULL && c.dead in s.busy && c.dead !in s.chain
          && (Preparing(s.producer.pc) ==> c.dead != s.producer.node)
          && c.next == s.head && PayloadOf(s.mem, s.head) == s.values[0] && PayloadSettled(s.buffer, s.head))
    && (c.pc.SubOne? ==> s.counted)
  }

  /** Every node in the queue's hands is in the chain, the producer's, or about to be handed out. */
  ghost predicate BusyOk(s: State) {
    forall a :: a in s.busy ==>
      || a in s.chain || (Preparing(s.producer.pc) && a == s.producer.node)
      || (s.consumer.pc.HandOut? && a == s.consumer.dead)
  }

  /** Values come out in the order they went in, each node is handed out one dequeue after it was
      returned, and len is what is queued but for the calls between their store and their count. */
  ghost predicate RecordsOk(s: State, dummy: Addr)
    requires |s.chain| == |s.values| > 0
  {
    && s.sent == s.taken + (if s.consumer.pc.HandOut? then [s.values[0]] else []) + s.values[1..]
    && [dummy] + s.returned == s.given + [if s.consumer.pc.HandOut? then s.consumer.dead else s.head]
    && (s.counted ==> s.len == |s.chain| - 1 - (if s.producer.pc.StoreTail? || s.producer.pc.AddOne? then 1 else 0)
                                             - (if s.consumer.pc.StoreHead? then 1 else 0))
  }

  ghost predicate Good(s: State, dummy: Addr) {
    && ChainOk(s) && MemoryOk(s) && Targets(s) && ProducerOk(s) && ConsumerOk(s) && BusyOk(s) && RecordsOk(s, dummy)
  }

  // ---- stores ---------------------------------------------------------------------------------------------

  lemma LandOther(mem: map<Addr, Node>, st: Store, a: Addr)
    requires st.SetTail? || st.at != a
    ensures SameNode(mem, Land(mem, st), a)
  {
  }

  lemma LinkedAfter(s: State, st: Store)
    requires ChainOk(s) && MemoryOk(s) && Misses(st, s.chain)
    ensures Linked(LandAll(s.mem, s.buffer + [st]), s.chain, s.values)
    ensures AlwaysWalkable(s.mem, s.buffer + [st], s.chain, s.values)
  {
    var full := LandAll(s.mem, s.buffer);
    LandAllAppend(s.mem, s.buffer, st);
    forall i | 0 <= i < |s.chain|
      ensures SameNode(full, Land(full, st), s.chain[i])
    {
      LandOther(full, st, s.chain[i]);
    }
    LinkedFrame(full, Land(full, st), s.chain, s.values);
    AppendMiss(s.mem, s.buffer, st, s.chain, s.values);
  }

  /** The caller's store of its payload, and the call. */
  lemma CallGood(s: State, e: Event, dummy: Addr)
    requires Good(s, dummy) && Enabled(s, e) && e.CallEnqueue?
    ensures Good(Apply(s, e), dummy)
  {
    var st := SetPayload(e.node, e.value);
    LinkedAfter(s, st);
    LandAllAppend(s.mem, s.buffer, st);
    TailSeenAppend(s.tail, s.buffer, st);
  }

  /** Line 144 */
  lemma InitNextGood(s: State, dummy: Addr)
    requires Good(s, dummy) && s.producer.pc.InitNext?
    ensures Good(ProduceMove(s), dummy)
  {
    var st := SetNext(s.producer.node, NULL);
    LinkedAfter(s, st);
    LandAllAppend(s.mem, s.buffer, st);
    TailSeenAppend(s.tail, s.buffer, st);
  }

  lemma LoadTailGood(s: State, dummy: Addr)
    requires Good(s, dummy) && s.producer.pc.LoadTail?
    ensures Good(ProduceMove(s), dummy)
  {
  }

  lemma LinkMemory(s: State)
    requires ChainOk(s) && MemoryOk(s) && ProducerOk(s) && s.producer.pc.Link?
    ensures var s' := ProduceMove(s); ChainOk(s) && |s'.chain| == |s'.values| && MemoryOk(s')
  {
    var p := s.producer;
    LandAllAppend(s.mem, s.buffer, SetNext(p.tail, p.node));
    AppendLink(s.mem, s.buffer, s.chain, s.values, p.node, p.value);
    LinkedExtend(LandAll(s.mem, s.buffer), s.chain, s.values, p.node, p.value);
  }

  lemma LinkOwners(s: State, s': State)
    requires ChainOk(s) && Targets(s) && BusyOk(s) && s.producer.pc.Link? && s.producer.node != NULL
    requires s.producer.node in s.busy && s.producer.node !in s.chain && s.producer.tail in s.chain
    requires s' == ProduceMove(s)
    ensures ChainOk(s') && Targets(s') && BusyOk(s')
  {
    assert s'.chain[|s.chain|] == s.producer.node;
    forall a | a in s.chain ensures a in s'.chain { }
  }

  lemma LinkRecords(s: State, dummy: Addr)
    requires ChainOk(s) && RecordsOk(s, dummy) && s.producer.pc.Link?
    ensures RecordsOk(ProduceMove(s), dummy)
  {
    assert (s.values + [s.producer.value])[1..] == s.values[1..] + [s.producer.value];
  }

  /** Line 148: the node joins the chain. */
  lemma LinkGood(s: State, dummy: Addr)
    requires Good(s, dummy) && s.producer.pc.Link?
    ensures Good(ProduceMove(s), dummy)
  {
    LinkMemory(s);
    LinkOwners(s, ProduceMove(s));
    LinkRecords(s, dummy);
    LinkConsumer(s);
  }

  lemma LinkConsumer(s: State)
    requires ChainOk(s) && ProducerOk(s) && ConsumerOk(s) && s.producer.pc.Link?
    ensures ConsumerOk(ProduceMove(s)) && ProducerOk(ProduceMove(s))
  {
  }

  /** Line 150 */
  lemma StoreTailGood(s: State, dummy: Addr)
    requires Good(s, dummy) && s.producer.pc.StoreTail?
    ensures Good(ProduceMove(s), dummy)
  {
    var st := SetTail(s.producer.node);
    LinkedAfter(s, st);
    LandAllAppend(s.mem, s.buffer, st);
    TailSeenAppend(s.tail, s.buffer, st);
  }

  lemma AddOneGood(s: State, dummy: Addr)
    requires Good(s, dummy) && s.producer.pc.AddOne?
    ensures Good(ProduceMove(s), dummy)
  {
  }

  /** The oldest pending store lands. */
  lemma DrainGood(s: State, dummy: Addr)
    requires Good(s, dummy) && s.buffer != []
    ensures Good(Apply(s, Drain), dummy)
  {
    var st := s.buffer[0];
    if NextOf(s.mem, s.head) != NULL { LandOther(s.mem, st, s.head); }
  }

  lemma {:induction false} FullFrame(mem: map<Addr, Node>, buffer: seq<Store>, node: Addr, junk: Node, a: Addr)
    requires a != node
    ensures SameNode(LandAll(mem, buffer), LandAll(mem[node := junk], buffer), a)
    decreases |buffer|
  {
    if buffer == [] {
    } else {
      var junk' := Land(mem[node := junk], buffer[0])[node];
      assert Land(mem[node := junk], buffer[0]) == Land(mem, buffer[0])[node := junk'];
      FullFrame(Land(mem, buffer[0]), buffer[1..], node, junk', a);
    }
  }

  /** The owner of a node outside the queue writes to it. */
  lemma ScribbleGood(s: State, node: Addr, junk: Node, dummy: Addr)
    requires Good(s, dummy) && node !in s.busy
    ensures Good(s.(mem := s.mem[node := junk]), dummy)
  {
    var full, full' := LandAll(s.mem, s.buffer), LandAll(s.mem[node := junk], s.buffer);
    BufferFrame(s.mem, s.buffer, s.chain, s.values, node, junk);
    forall a | a != node ensures SameNode(full, full', a) {
      FullFrame(s.mem, s.buffer, node, junk, a);
    }
    LinkedFrame(full, full', s.chain, s.values);
    if Preparing(s.producer.pc) { assert SameNode(full, full', s.producer.node); }
  }

  // ---- the consumer ---------------------------------------------------------------------------------------

  /** A step or a call that changes only what the consumer knows. */
  lemma ConsumerOnly(s: State, c: Consumer, dummy: Addr)
    requires Good(s, dummy) && ConsumerOk(s.(consumer := c)) && !c.pc.HandOut? && !s.consumer.pc.HandOut?
    requires s.counted ==> !c.pc.StoreHead? && !s.consumer.pc.StoreHead?
    ensures Good(s.(consumer := c), dummy)
  {
  }

  /** The loads of lines 131, 166 and 170. */
  lemma ConsumerLoadsGood(s: State, dummy: Addr)
    requires Good(s, dummy)
    requires s.consumer.pc.LoadHead? || s.consumer.pc.LoadNext? || s.consumer.pc.PeekHead? || s.consumer.pc.PeekNext?
    ensures Good(ConsumeMove(s), dummy)
  {
    ConsumerOnly(s, ConsumeMove(s).consumer, dummy);
  }

  /** Line 178 */
  lemma SubOneGood(s: State, dummy: Addr)
    requires Good(s, dummy) && s.consumer.pc.SubOne?
    ensures Good(ConsumeMove(s), dummy)
  {
  }

  lemma DropMemory(s: State)
    requires ChainOk(s) && MemoryOk(s) && NextOf(s.mem, s.head) != NULL
    ensures |s.chain| > 1 && s.chain[1] == NextOf(s.mem, s.head) && s.chain[1] in s.mem
    ensures PayloadOf(s.mem, s.chain[1]) == s.values[1]
    ensures PayloadSettled(s.buffer, s.chain[1]) && InitSettled(s.buffer, s.chain[1]) && Settled(s.buffer, s.head)
    ensures AlwaysWalkable(s.mem, s.buffer, s.chain[1..], s.values[1..])
    ensures Linked(LandAll(s.mem, s.buffer), s.chain[1..], s.values[1..])
  {
    DropFirst(s.mem, s.buffer, s.chain, s.values);
  }

  /** Line 181: the old dummy leaves the chain, and no store to it is pending. */
  lemma StoreHeadGood(s: State, dummy: Addr)
    requires Good(s, dummy) && s.consumer.pc.StoreHead?
    ensures Good(ConsumeMove(s), dummy)
  {
    var s' := ConsumeMove(s);
    DropMemory(s);
    assert s'.chain == s.chain[1..] && s'.values == s.values[1..];
    DropTargets(s, s');
    DropOwners(s, s');
    DropRecords(s, s', dummy);
    assert s'.chain[|s'.chain| - 1] == s.chain[|s.chain| - 1];
  }

  lemma DropRecords(s: State, s': State, dummy: Addr)
    requires |s.chain| == |s.values| > 1 && RecordsOk(s, dummy) && s.consumer.pc.StoreHead? && s.consumer.dead == s.head
    requires s' == ConsumeMove(s)
    ensures RecordsOk(s', dummy)
  {
    assert s.values[1..] == [s'.values[0]] + s'.values[1..];
  }

  lemma DropTargets(s: State, s': State)
    requires Targets(s) && |s.chain| > 1 && Settled(s.buffer, s.chain[0])
    requires s'.chain == s.chain[1..] && s'.buffer == s.buffer && s'.producer == s.producer
    ensures Targets(s')
  {
    forall a | a in s.chain && a != s.chain[0] ensures a in s'.chain {
      var i :| 0 <= i < |s.chain| && s.chain[i] == a;
      assert s'.chain[i - 1] == a;
    }
  }

  lemma DropOwners(s: State, s': State)
    requires ChainOk(s) && BusyOk(s) && |s.chain| > 1 && s.consumer.pc.StoreHead? && s.consumer.dead == s.chain[0]
    requires s'.chain == s.chain[1..] && s'.busy == s.busy && s'.producer == s.producer
    requires s'.consumer == s.consumer.(pc := HandOut)
    ensures BusyOk(s') && s.chain[0] !in s'.chain
  {
    forall a | a in s.chain && a != s.chain[0] ensures a in s'.chain {
      var i :| 0 <= i < |s.chain| && s.chain[i] == a;
      assert s'.chain[i - 1] == a;
    }
  }

  /** Lines 183-185: the value is read, and the old dummy handed out to free. */
  lemma HandOutGood(s: State, dummy: Addr)
    requires Good(s, dummy) && s.consumer.pc.HandOut?
    ensures Good(ConsumeMove(s), dummy)
  {
  }

  lemma GoodKept(s: State, e: Event, dummy: Addr)
    requires Good(s, dummy) && Enabled(s, e)
    ensures Good(Apply(s, e), dummy)
  {
    match e
    case CallEnqueue(_, _) => CallGood(s, e, dummy);
    case CallDequeue => ConsumerOnly(s, s.consumer.(pc := LoadHead), dummy);
    case CallEmpty => ConsumerOnly(s, s.consumer.(pc := PeekHead), dummy);
    case Drain => DrainGood(s, dummy);
    case Scribble(node, junk) => ScribbleGood(s, node, junk, dummy);
    case Produce =>
      var pc := s.producer.pc;
      if pc.InitNext? { InitNextGood(s, dummy); }
      else if pc.LoadTail? { LoadTailGood(s, dummy); }
      else if pc.Link? { LinkGood(s, dummy); }
      else if pc.StoreTail? { StoreTailGood(s, dummy); }
      else { AddOneGood(s, dummy); }
    case Consume =>
      if s.consumer.pc.StoreHead? { StoreHeadGood(s, dummy); }
      else if s.consumer.pc.HandOut? { HandOutGood(s, dummy); }
      else if s.consumer.pc.SubOne? { SubOneGood(s, dummy); }
      else if !s.consumer.pc.Idle? { ConsumerLoadsGood(s, dummy); }
  }

  /** The owner of a node outside the queue is free in what it writes there. */
  lemma OwnerIsFree(s: State, node: Addr, junk: Node)
    requires Enabled(s, Scribble(node, junk))
    ensures Apply(s, Scribble(node, junk)).mem == s.mem[node := junk]
  {
  }

  lemma InitGood(counted: bool, dummy: Addr, garbage: Data)
    requires dummy != NULL
    ensures Good(Init(counted, dummy, garbage), dummy)
  {
  }

  lemma {:induction false} GoodAlways(s: State, es: seq<Event>, dummy: Addr)
    requires Good(s, dummy) && Admissible(s, es)
    ensures Good(Exec(s, es), dummy)
    decreases |es|
  {
    if es == [] {
    } else {
      GoodKept(s, es[0], dummy);
      GoodAlways(Apply(s, es[0]), es[1..], dummy);
    }
  }

  ghost predicate Reachable(s: State, counted: bool, dummy: Addr, garbage: Data, es: seq<Event>) {
    dummy != NULL && Admissible(Init(counted, dummy, garbage), es) && s == Exec(Init(counted, dummy, garbage), es)
  }

  lemma ReachableGood(s: State, counted: bool, dummy: Addr, garbage: Data, es: seq<Event>)
    requires Reachable(s, counted, dummy, garbage, es)
    ensures Good(s, dummy)
  {
    InitGood(counted, dummy, garbage);
    GoodAlways(Init(counted, dummy, garbage), es, dummy);
  }

  // ---- the promises ---------------------------------------------------------------------------------------

  /** The values the producer was asked to enqueue. */
  function Offered(es: seq<Event>): seq<Data> {
    if es == [] then [] else (if es[0].CallEnqueue? then [es[0].value] else []) + Offered(es[1..])
  }

  /** The values linked so far, and the one the producer is about to link. */
  function Accepted(s: State): seq<Data> {
    s.sent + if Preparing(s.producer.pc) then [s.producer.value] else []
  }

  lemma OneAccepted(s: State, e: Event)
    requires Enabled(s, e)
    ensures Accepted(Apply(s, e)) == Accepted(s) + if e.CallEnqueue? then [e.value] else []
  {
  }

  /** What has been offered is linked, or the producer is about to link it. */
  lemma {:induction false} OfferedIsAccepted(s: State, es: seq<Event>)
    requires Admissible(s, es)
    ensures Accepted(Exec(s, es)) == Accepted(s) + Offered(es)
    decreases |es|
  {
    if es == [] {
    } else {
      var s' := Apply(s, es[0]);
      var first: seq<Data> := if es[0].CallEnqueue? then [es[0].value] else [];
      OneAccepted(s, es[0]);
      OfferedIsAccepted(s', es[1..]);
      assert (Accepted(s) + first) + Offered(es[1..]) == Accepted(s) + (first + Offered(es[1..]));
    }
  }

  /** FIFO with recycled nodes and delayed stores (spsc_queue.h:137-186): in every state, the values returned,
      the one being returned, those queued and the one being linked are the values offered, in order. */
  lemma Fifo(s: State, counted: bool, dummy: Addr, garbage: Data, es: seq<Event>)
    requires Reachable(s, counted, dummy, garbage, es)
    ensures |s.values| > 0
    ensures Offered(es) == s.taken + (if s.consumer.pc.HandOut? then [s.values[0]] else []) + s.values[1..]
                         + (if Preparing(s.producer.pc) then [s.producer.value] else [])
  {
    ReachableGood(s, counted, dummy, garbage, es);
    OfferedIsAccepted(Init(counted, dummy, garbage), es);
  }

  /** A next word that will have another value once all stores have landed has a store on its way. */
  lemma {:induction false} StoreIsPending(mem: map<Addr, Node>, buffer: seq<Store>, a: Addr)
    ensures NextOf(LandAll(mem, buffer), a) == NextOf(mem, a)
         || exists i :: 0 <= i < |buffer| && buffer[i] == SetNext(a, NextOf(LandAll(mem, buffer), a))
    decreases |buffer|
  {
    if buffer == [] {
    } else {
      var mem', rest := Land(mem, buffer[0]), buffer[1..];
      StoreIsPending(mem', rest, a);
      if NextOf(LandAll(mem', rest), a) == NextOf(mem', a) {
        if buffer[0].SetTail? || buffer[0].at != a { LandOther(mem, buffer[0], a); }
      } else {
        var i :| 0 <= i < |rest| && rest[i] == SetNext(a, NextOf(LandAll(mem', rest), a));
        assert buffer[i + 1] == rest[i];
      }
    }
  }

  /** What the consumer meets (spsc_queue.h:166-185 with x86/barrier.h:7-20): behind a next word that is not NULL
      there is a node whose own next word and payload have landed, and no store is on its way to
      the node it is about to hand out. A NULL means that nothing is queued but what the buffer still
      holds back. */
  lemma ConsumerMeetsCompleteNodes(s: State, counted: bool, dummy: Addr, garbage: Data, es: seq<Event>)
    requires Reachable(s, counted, dummy, garbage, es) && (s.consumer.pc.LoadNext? || s.consumer.pc.PeekNext?)
    ensures var next := NextOf(s.mem, s.consumer.dead);
      && |s.chain| == |s.values| > 0
      && (next != NULL ==>
            && |s.chain| > 1 && next == s.chain[1] && next in s.mem && PayloadOf(s.mem, next) == s.values[1]
            && Settled(s.buffer, s.consumer.dead) && PayloadSettled(s.buffer, next) && InitSettled(s.buffer, next)
            && (NextOf(s.mem, next) == NULL || (|s.chain| > 2 && NextOf(s.mem, next) == s.chain[2])))
      && (next == NULL ==>
            |s.chain| == 1 || exists i :: 0 <= i < |s.buffer| && s.buffer[i] == SetNext(s.head, s.chain[1]))
      && (next == NULL && s.buffer == [] ==> s.sent == s.taken)
  {
    ReachableGood(s, counted, dummy, garbage, es);
    StoreIsPending(s.mem, s.buffer, s.head);
    if NextOf(s.mem, s.head) != NULL { DropMemory(s); }
  }

  /** Emptiness (spsc_queue.h:125-132), with any steps of the producer between the two loads: the answer "not empty"
      is true, and "empty" is true but for what the buffer still holds back. */
  lemma EmptyIsHonest(s: State, counted: bool, dummy: Addr, garbage: Data, es: seq<Event>)
    requires Reachable(s, counted, dummy, garbage, es) && s.consumer.pc.PeekNext?
    ensures var empty := ConsumeMove(s).consumer.empty;
      && |s.chain| > 0
      && (!empty ==> s.sent != s.taken)
      && (empty && s.sent != s.taken ==> |s.chain| > 1 && SetNext(s.head, s.chain[1]) in s.buffer)
      && (s.buffer == [] ==> (empty <==> s.sent == s.taken))
  {
    ReachableGood(s, counted, dummy, garbage, es);
    ConsumerMeetsCompleteNodes(s, counted, dummy, garbage, es);
  }

  lemma {:induction false} NoTailPending(tail: Addr, buffer: seq<Store>)
    requires forall i :: 0 <= i < |buffer| ==> !buffer[i].SetTail?
    ensures TailSeen(tail, buffer) == tail
    decreases |buffer|
  {
    if buffer == [] {
    } else {
      NoTailPending(tail, buffer[1..]);
    }
  }

  /** Ownership (spsc_queue.h:144-150, 166-185): nodes are handed out in the order in which they were returned, each
      one successful dequeue later, the first dummy at the first; no store is on its way to a node
      outside the queue; and q->tail as the producer sees it names a node of the queue, except between lines
      148 and 150, where the producer does not follow it; in memory also while the store of line 150 is pending. */
  lemma Ownership(s: State, counted: bool, dummy: Addr, garbage: Data, es: seq<Event>, a: Addr)
    requires Reachable(s, counted, dummy, garbage, es)
    ensures s.given == ([dummy] + s.returned)[..|s.returned|]
    ensures a !in s.busy ==> Settled(s.buffer, a)
    ensures !s.producer.pc.StoreTail? ==> TailSeen(s.tail, s.buffer) in s.chain
    ensures s.tail !in s.chain ==> s.producer.pc.StoreTail? || exists i :: 0 <= i < |s.buffer| && s.buffer[i].SetTail?
    ensures s.producer.pc.Link? ==> s.producer.tail in s.chain && s.producer.tail in s.busy
    ensures s.consumer.pc.HandOut? ==> s.consumer.dead in s.busy && s.consumer.dead !in s.chain
    ensures !s.consumer.pc.Idle? && !s.consumer.pc.LoadHead? && !s.consumer.pc.PeekHead? ==> s.consumer.dead in s.busy
  {
    ReachableGood(s, counted, dummy, garbage, es);
    if forall i :: 0 <= i < |s.buffer| ==> !s.buffer[i].SetTail? { NoTailPending(s.tail, s.buffer); }
    assert s.given == (s.given + [if s.consumer.pc.HandOut? then s.consumer.dead else s.head])[..|s.given|];
  }

  /** Length accounting (spsc_queue.h:148-153, 177-181): len trails the queue by one for an enqueue between lines
      148 and 152 and by one for a dequeue between lines 178 and 181, never falls below -1, and is exact when
      both sides rest. */
  lemma LengthAccounts(s: State, dummy: Addr, garbage: Data, es: seq<Event>)
    requires Reachable(s, true, dummy, garbage, es)
    ensures |s.values| > 0 && -1 <= s.len
    ensures s.len == |s.values| - 1 - (if s.producer.pc.StoreTail? || s.producer.pc.AddOne? then 1 else 0)
                                    - (if s.consumer.pc.StoreHead? then 1 else 0)
    ensures s.producer.pc.Resting? && s.consumer.pc.Idle? ==> s.len == |s.sent| - |s.taken|
  {
    ReachableGood(s, true, dummy, garbage, es);
    CountedStays(Init(true, dummy, garbage), es);
    if s.consumer.pc.StoreHead? { DropMemory(s); }
  }

  lemma {:induction false} CountedStays(s: State, es: seq<Event>)
    ensures Exec(s, es).counted == s.counted
    decreases |es|
  {
    if es == [] {
    } else {
      CountedStays(Apply(s, es[0]), es[1..]);
    }
  }
}
