/** The single-producer single-consumer queue as an object whose words the two threads update in place. */
module SpscQueue {
  import opened SpscModel
  import opened SpscTheorems
  import opened SpscCalls

  class Queue {
    const counted: bool
    var mem: map<Addr, Node>
    var head: Addr
    var tail: Addr
    var buffer: seq<Store>
    var len: int
    var producer: Producer
    var consumer: Consumer
    // History only: nothing above depends on what follows.
    ghost const dummy: Addr
    ghost var busy: set<Addr>
    ghost var chain: seq<Addr>
    ghost var values: seq<Data>
    ghost var sent: seq<Data>
    ghost var taken: seq<Data>
    ghost var returned: seq<Addr>
    ghost var given: seq<Addr>

    ghost function View(): State
      reads this
    {
      State(counted, mem, head, tail, buffer, len, producer, consumer, busy,
            chain, values, sent, taken, returned, given)
    }

    ghost predicate Valid()
      reads this
    {
      Good(View(), dummy)
    }

    /** spsc_queue_init with a dummy node, whose payload is garbage. */
    constructor (counted: bool, dummy: Addr, garbage: Data)
      requires dummy != NULL
      ensures Valid() && View() == Init(counted, dummy, garbage) && this.dummy == dummy
    {
      this.counted, this.dummy := counted, dummy;
      mem, head, tail, buffer, len := map[dummy := Node(NULL, garbage)], dummy, dummy, [], 0;
      producer, consumer := Producer(Resting, NULL, 0, NULL), Consumer(Idle, NULL, NULL, true);
      busy, chain, values := {dummy}, [dummy], [garbage];
      sent, taken, returned, given := [], [], [], [];
      new;
      InitGood(counted, dummy, garbage);
    }

    /** A store of the producer: it waits in the buffer. */
    method Issue(st: Store)
      modifies this`buffer
      ensures buffer == old(buffer) + [st]
    {
      buffer := buffer + [st];
    }

    /** The oldest store reaches memory. */
    method LandOldest()
      requires buffer != []
      modifies this`buffer, this`mem, this`tail
      ensures View() == Apply(old(View()), Drain)
    {
      match buffer[0] {
        case SetNext(a, next) => mem := mem[a := Node(next, PayloadOf(mem, a))];
        case SetPayload(a, payload) => mem := mem[a := Node(NextOf(mem, a), payload)];
        case SetTail(t) => tail := t;
      }
      buffer := buffer[1..];
    }

    /** The producer's load of q->tail: its own latest store to it, if one is still in the buffer. */
    method SeeTail() returns (seen: Addr)
      ensures seen == TailSeen(tail, buffer)
    {
      seen := tail;
      var i := 0;
      while i < |buffer|
        invariant 0 <= i <= |buffer| && TailSeen(seen, buffer[i..]) == TailSeen(tail, buffer)
      {
        assert buffer[i..][0] == buffer[i] && buffer[i..][1..] == buffer[i + 1..];
        if buffer[i].SetTail? { seen := buffer[i].tail; }
        i := i + 1;
      }
    }

    /** The next step of spsc_enqueue. */
    method ProducerStep()
      requires Enabled(View(), Produce)
      modifies this
      ensures View() == Apply(old(View()), Produce)
    {
      match producer.pc {
        case InitNext =>
          Issue(SetNext(producer.node, NULL));
          producer := producer.(pc := LoadTail);
        case LoadTail =>
          var seen := SeeTail();
          producer := producer.(tail := seen, pc := Link);
        case Link =>
          Issue(SetNext(producer.tail, producer.node));
          chain, values, sent := chain + [producer.node], values + [producer.value], sent + [producer.value];
          producer := producer.(pc := StoreTail);
        case StoreTail =>
          Issue(SetTail(producer.node));
          producer := producer.(pc := if counted then AddOne else Resting);
        case AddOne =>
          len := len + 1;
          producer := producer.(pc := Resting);
      }
    }

    /** The loads of spsc_dequeue and spsc_queue_empty. */
    method ConsumerLoad()
      requires consumer.pc.LoadHead? || consumer.pc.LoadNext? || consumer.pc.PeekHead? || consumer.pc.PeekNext?
      requires ReadsExist(View())
      modifies this`consumer
      ensures View() == Apply(old(View()), Consume)
    {
      match consumer.pc {
        case LoadHead => consumer := consumer.(dead := head, pc := LoadNext);
        case LoadNext =>
          var next := mem[consumer.dead].next;
          consumer := if next == NULL then consumer.(pc := Idle)
                      else consumer.(next := next, pc := if counted then SubOne else StoreHead);
        case PeekHead => consumer := consumer.(dead := head, pc := PeekNext);
        case PeekNext => consumer := consumer.(empty := mem[consumer.dead].next == NULL, pc := Idle);
      }
    }

    /** Line 181 */
    method MoveHead()
      requires consumer.pc.StoreHead?
      modifies this`head, this`consumer, this`chain, this`values
      ensures View() == Apply(old(View()), Consume)
    {
      head := consumer.next;
      consumer := consumer.(pc := HandOut);
      chain, values := (if chain == [] then [] else chain[1..]), (if values == [] then [] else values[1..]);
    }

    /** Lines 183-185 */
    method GiveOut() returns (node: Addr, handed: Addr, payload: Data)
      requires consumer.pc.HandOut? && ReadsExist(View())
      modifies this`consumer, this`busy, this`taken, this`returned, this`given
      ensures View() == Apply(old(View()), Consume)
      ensures node == old(consumer.next) && handed == old(consumer.dead) && payload == PayloadOf(old(mem), node)
    {
      node, handed, payload := consumer.next, consumer.dead, mem[consumer.next].payload;
      busy, taken := busy - {handed}, taken + [payload];
      returned, given := returned + [node], given + [handed];
      consumer := consumer.(pc := Idle);
    }

    /** The next step of the consumer's call. A step that ends spsc_dequeue returns node, gives out handed to free, and
        payload is what node holds; both pointers are NULL when nothing is returned. */
    method ConsumerStep() returns (node: Addr, handed: Addr, payload: Data)
      requires Enabled(View(), Consume) && ReadsExist(View())
      modifies this
      ensures View() == Apply(old(View()), Consume)
      ensures old(consumer.pc).HandOut? ==>
        && node == old(consumer.next) && handed == old(consumer.dead) && payload == PayloadOf(old(mem), node)
        && returned == old(returned) + [node] && given == old(given) + [handed] && taken == old(taken) + [payload]
      ensures !old(consumer.pc).HandOut? ==>
        node == NULL && handed == NULL && returned == old(returned) && given == old(given) && taken == old(taken)
    {
      node, handed, payload := NULL, NULL, NULL;
      if consumer.pc.SubOne? {
        len := len - 1;
        consumer := consumer.(pc := StoreHead);
      } else if consumer.pc.StoreHead? {
        MoveHead();
      } else if consumer.pc.HandOut? {
        node, handed, payload := GiveOut();
      } else {
        ConsumerLoad();
      }
    }

    /** Any event of either side, of the memory system, or of the owner of a node outside the queue. */
    method Advance(e: Event)
      requires Enabled(View(), e) && (e.Consume? ==> ReadsExist(View()))
      modifies this
      ensures View() == Apply(old(View()), e)
    {
      match e {
        case CallEnqueue(node, value) =>
          Issue(SetPayload(node, value));
          busy := busy + {node};
          producer := producer.(pc := InitNext, node := node, value := value);
        case CallDequeue => consumer := consumer.(pc := LoadHead);
        case CallEmpty => consumer := consumer.(pc := PeekHead);
        case Produce => ProducerStep();
        case Consume => var _, _, _ := ConsumerStep();
        case Drain => LandOldest();
        case Scribble(node, junk) => mem := mem[node := junk];
      }
    }

    /** Any schedule: the object does what the step machine does, so every theorem about runs is about it. */
    method Run(es: seq<Event>)
      requires Valid() && Admissible(View(), es)
      modifies this
      ensures Valid() && View() == Exec(old(View()), es)
    {
      var i := 0;
      while i < |es|
        invariant 0 <= i <= |es| && Valid() && Admissible(View(), es[i..])
        invariant Exec(View(), es[i..]) == Exec(old(View()), es)
      {
        assert es[i..][0] == es[i] && es[i..][1..] == es[i + 1..];
        GoodKept(View(), es[i], dummy);
        GoodReads(View(), dummy);
        Advance(es[i]);
        i := i + 1;
      }
    }

    /** spsc_queue_empty while the producer rests and no store is pending. */
    method IsEmpty() returns (empty: bool)
      requires Valid() && Still(View())
      modifies this`consumer
      ensures Valid() && Still(View()) && (empty <==> |chain| == 1)
    {
      StillMemory(View(), dummy);
      GoodKept(View(), CallEmpty, dummy);
      consumer := consumer.(pc := PeekHead);
      GoodKept(View(), Consume, dummy);
      ConsumerLoad();
      GoodKept(View(), Consume, dummy);
      ConsumerLoad();
      empty := consumer.empty;
    }

    /** One step of a dequeue that runs alone. */
    method ConsumeOne(ghost s0: State) returns (node: Addr, handed: Addr, payload: Data)
      requires Valid() && Good(s0, dummy) && s0.buffer == [] && Dequeuing(s0, View()) && !consumer.pc.Idle?
      modifies this
      ensures Valid() && Dequeuing(s0, View()) && StepsLeft(consumer.pc) < StepsLeft(old(consumer.pc))
      ensures consumer.pc.Idle? ==> Outcome(s0, node, handed, payload)
    {
      DequeuingStep(s0, View(), dummy);
      NeverBlocked(View());
      GoodKept(View(), Consume, dummy);
      GoodReads(View(), dummy);
      OutcomeIs(s0, View(), dummy);
      node, handed, payload := ConsumerStep();
    }

    /** spsc_dequeue while the producer does not move and no store is pending: it returns the oldest node and gives out
        the old dummy, or, when nothing is queued, returns NULL, gives out NULL and changes nothing. */
    method Dequeue() returns (node: Addr, handed: Addr, payload: Data)
      requires Valid() && consumer.pc.Idle? && buffer == []
      modifies this
      ensures Valid() && consumer.pc.Idle? && Outcome(old(View()), node, handed, payload)
      ensures View() == if |old(chain)| > 1 then Dequeued(old(View()), consumer) else old(View()).(consumer := consumer)
    {
      ghost var s0 := View();
      GoodKept(s0, CallDequeue, dummy);
      consumer := consumer.(pc := LoadHead);
      node, handed, payload := NULL, NULL, NULL;
      while !consumer.pc.Idle?
        invariant Valid() && Dequeuing(s0, View()) && (consumer.pc.Idle? ==> Outcome(s0, node, handed, payload))
        decreases StepsLeft(consumer.pc)
      {
        node, handed, payload := ConsumeOne(s0);
      }
    }

    /** spsc_enqueue while the consumer does not move, wherever it is stopped: it returns, with the node at the end
        and the value sent, counted if there is a counter. */
    method Enqueue(node: Addr, value: Data)
      requires Valid() && producer.pc.Resting? && node != NULL && node !in busy
      modifies this
      ensures Valid() && producer.pc.Resting? && Enqueuing(old(View()), View(), node, value)
    {
      ghost var s0 := View();
      GoodKept(s0, CallEnqueue(node, value), dummy);
      Advance(CallEnqueue(node, value));
      while !producer.pc.Resting?
        invariant Valid() && Enqueuing(s0, View(), node, value)
        decreases StoresLeft(producer.pc), |buffer|
      {
        EnqueuingStep(s0, View(), node, value);
        NeverBlocked(View());
        if producer.pc.AddOne? && buffer != [] {
          GoodKept(View(), Drain, dummy);
          LandOldest();
        } else {
          GoodKept(View(), Produce, dummy);
          ProducerStep();
        }
      }
    }

    /** spsc_queue_len: what is queued, but for the calls between their store and their count. */
    method Length() returns (r: int)
      requires Valid() && counted
      ensures r == |chain| - 1 - (if producer.pc.StoreTail? || producer.pc.AddOne? then 1 else 0)
                               - (if consumer.pc.StoreHead? then 1 else 0)
    {
      r := len;
    }

    /** One pass of the loop of spsc_queue_destroy. */
    method FreeOne(released: seq<Addr>, ghost all: seq<Addr>) returns (released': seq<Addr>)
      requires TearingDown(all, View(), dummy, released) && |chain| > 1
      modifies this
      ensures TearingDown(all, View(), dummy, released') && |chain| == |old(chain)| - 1
    {
      ghost var before := chain;
      var node, handed, payload := Dequeue();
      assert before == [handed] + chain;
      released' := if handed != NULL then released + [handed] else released;
    }

    /** The loop of spsc_queue_destroy. */
    method FreeAll(ghost all: seq<Addr>) returns (released: seq<Addr>)
      requires TearingDown(all, View(), dummy, [])
      modifies this
      ensures TearingDown(all, View(), dummy, released) && |chain| == 1
    {
      released := [];
      var empty := IsEmpty();
      while !empty
        invariant TearingDown(all, View(), dummy, released)
        invariant empty <==> |chain| == 1
        decreases |chain|
      {
        released := FreeOne(released, all);
        empty := IsEmpty();
      }
    }

    /** spsc_queue_destroy, called when no call is running and all stores have landed: it ends, and frees
        the nodes of the queue once each, in order, the last dummy at the end. */
    method Destroy() returns (released: seq<Addr>)
      requires Valid() && Still(View())
      modifies this
      ensures released == old(chain)
    {
      ghost var all := chain;
      TearingStarts(View(), dummy);
      released := FreeAll(all);
      TearingEnds(all, View(), dummy, released);
      released := released + [head];
    }
  }

  /** What a dequeue that runs alone from s0 returns. */
  ghost predicate Outcome(s0: State, node: Addr, handed: Addr, payload: Data) {
    if |s0.chain| > 1 && |s0.values| > 1 then node == s0.chain[1] && handed == s0.chain[0] && payload == s0.values[1]
    else node == NULL && handed == NULL
  }

  /** The step that ends it. */
  lemma OutcomeIs(s0: State, s: State, dummy: Addr)
    requires Good(s0, dummy) && s0.buffer == [] && Dequeuing(s0, s) && !s.consumer.pc.Idle?
    ensures ConsumeMove(s).consumer.pc.Idle? ==>
      if s.consumer.pc.HandOut? then Outcome(s0, s.consumer.next, s.consumer.dead, PayloadOf(s.mem, s.consumer.next))
      else |s0.chain| == 1
  {
    StillMemory(s0, dummy);
  }
}
