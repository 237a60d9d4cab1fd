/** What the calls of the single-producer single-consumer queue do, and that they return. */
module SpscCalls {
  import opened SpscModel
  import opened SpscInvariant
  import opened SpscTheorems

  // ---- every call returns --------------------------------------------------------------------------------

  /** Instructions of the consumer's call still to come, at most. */
  function StepsLeft(pc: ConsumerPc): nat {
    match pc
    case Idle => 0 case HandOut => 1 case StoreHead => 2 case SubOne => 3 case LoadNext => 4 case LoadHead => 5
    case PeekNext => 1 case PeekHead => 2
  }

  /** Instructions of the producer's call still to come, at most. */
  function StoresLeft(pc: ProducerPc): nat {
    match pc
    case Resting => 0 case AddOne => 1 case StoreTail => 2 case Link => 3 case LoadTail => 4 case InitNext => 5
  }

  /** No step of either side waits for the other: only line 152 waits, for the producer's own stores to land. */
  lemma NeverBlocked(s: State)
    ensures !s.consumer.pc.Idle? ==>
      Enabled(s, Consume) && StepsLeft(ConsumeMove(s).consumer.pc) < StepsLeft(s.consumer.pc)
    ensures Enabled(s, Produce) ==> StoresLeft(ProduceMove(s).producer.pc) < StoresLeft(s.producer.pc)
    ensures !s.producer.pc.Resting? && !Enabled(s, Produce) ==>
      s.producer.pc.AddOne? && Enabled(s, Drain) && |Apply(s, Drain).buffer| < |s.buffer|
  {
  }

  function Produces(es: seq<Event>): nat {
    if es == [] then 0 else (if es[0].Produce? then 1 else 0) + Produces(es[1..])
  }

  function Consumes(es: seq<Event>): nat {
    if es == [] then 0 else (if es[0].Consume? then 1 else 0) + Consumes(es[1..])
  }

  predicate ConsumerCalls(e: Event) {
    e.CallDequeue? || e.CallEmpty?
  }

  ghost predicate WithinEnqueue(es: seq<Event>) {
    forall i :: 0 <= i < |es| ==> !es[i].CallEnqueue?
  }

  ghost predicate WithinDequeue(es: seq<Event>) {
    forall i :: 0 <= i < |es| ==> !ConsumerCalls(es[i])
  }

  /** Wait-freedom of the producer: spsc_enqueue returns after at most five instructions, whatever the consumer and the
      memory do in between. */
  lemma {:induction false} ProducerReturns(s: State, es: seq<Event>)
    requires Admissible(s, es) && WithinEnqueue(es)
    ensures Produces(es) + StoresLeft(Exec(s, es).producer.pc) <= StoresLeft(s.producer.pc)
    decreases |es|
  {
    if es == [] {
    } else {
      NeverBlocked(s);
      assert !es[0].Produce? ==> Apply(s, es[0]).producer == s.producer;
      ProducerReturns(Apply(s, es[0]), es[1..]);
    }
  }

  /** And of the consumer: spsc_dequeue returns after at most five instructions, spsc_queue_empty after two. */
  lemma {:induction false} ConsumerReturns(s: State, es: seq<Event>)
    requires Admissible(s, es) && WithinDequeue(es)
    ensures Consumes(es) + StepsLeft(Exec(s, es).consumer.pc) <= StepsLeft(s.consumer.pc)
    decreases |es|
  {
    if es == [] {
    } else {
      NeverBlocked(s);
      assert !es[0].Consume? ==> Apply(s, es[0]).consumer == s.consumer;
      ConsumerReturns(Apply(s, es[0]), es[1..]);
    }
  }

  // ---- what a call has done, whatever the other side does ---------------------------------------------------

  /** The enqueue of value in node began in s0. */
  ghost predicate EnqueueSoFar(s0: State, s: State, node: Addr, value: Data) {
    && s.producer.node == node && s.producer.value == value
    && s.sent == s0.sent + if Preparing(s.producer.pc) then [] else [value]
  }

  lemma EnqueueGoesOn(s0: State, s: State, node: Addr, value: Data, e: Event)
    requires EnqueueSoFar(s0, s, node, value) && Enabled(s, e) && !e.CallEnqueue?
    ensures EnqueueSoFar(s0, Apply(s, e), node, value)
  {
    assert s0.sent + [] == s0.sent;
  }

  lemma {:induction false} EnqueueRuns(s0: State, s: State, node: Addr, value: Data, es: seq<Event>)
    requires EnqueueSoFar(s0, s, node, value) && Admissible(s, es) && WithinEnqueue(es)
    ensures EnqueueSoFar(s0, Exec(s, es), node, value)
    decreases |es|
  {
    if es == [] {
    } else {
      EnqueueGoesOn(s0, s, node, value, es[0]);
      EnqueueRuns(s0, Apply(s, es[0]), node, value, es[1..]);
    }
  }

  /** spsc_enqueue (spsc_queue.h:137-154): it returns after at most five instructions of its own, and has then sent its
      value, once. */
  lemma EnqueueReturns(s0: State, node: Addr, value: Data, es: seq<Event>)
    requires Enabled(s0, CallEnqueue(node, value))
    requires Admissible(Apply(s0, CallEnqueue(node, value)), es) && WithinEnqueue(es)
    ensures var s := Exec(Apply(s0, CallEnqueue(node, value)), es);
      && Produces(es) + StoresLeft(s.producer.pc) <= 5
      && (s.producer.pc.Resting? ==> s.sent == s0.sent + [value])
  {
    var s1 := Apply(s0, CallEnqueue(node, value));
    assert s0.sent + [] == s0.sent;
    EnqueueRuns(s0, s1, node, value, es);
    ProducerReturns(s1, es);
  }

  /** The consumer has handed out and returned nothing since s0. */
  ghost predicate NothingTaken(s0: State, s: State) {
    s.head == s0.head && s.given == s0.given && s.returned == s0.returned && s.taken == s0.taken
  }

  /** It has moved the head on by one node, handed out the old dummy and returned the new one. */
  ghost predicate OneTaken(s0: State, s: State) {
    && s.given == s0.given + [s0.head] && s.returned == s0.returned + [s.head] && s.head != NULL
    && |s.taken| == |s0.taken| + 1 && s0.taken <= s.taken
  }

  /** The dequeue began in s0. */
  ghost predicate DequeueSoFar(s0: State, s: State) {
    match s.consumer.pc
    case LoadHead => NothingTaken(s0, s)
    case LoadNext => NothingTaken(s0, s) && s.consumer.dead == s0.head
    case SubOne | StoreHead => NothingTaken(s0, s) && s.consumer.dead == s0.head && s.consumer.next != NULL
    case HandOut =>
      NothingTaken(s0.(head := s.head), s) && s.consumer.dead == s0.head && s.consumer.next == s.head != NULL
    case Idle => NothingTaken(s0, s) || OneTaken(s0, s)
    case _ => false
  }

  lemma ConsumeGoesOn(s0: State, s: State)
    requires DequeueSoFar(s0, s) && Enabled(s, Consume)
    ensures DequeueSoFar(s0, ConsumeMove(s))
  {
  }

  lemma OthersTakeNothing(s: State, e: Event)
    requires Enabled(s, e) && !ConsumerCalls(e) && !e.Consume?
    ensures NothingTaken(s, Apply(s, e)) && Apply(s, e).consumer == s.consumer
  {
  }

  lemma DequeueGoesOn(s0: State, s: State, e: Event)
    requires DequeueSoFar(s0, s) && Enabled(s, e) && !ConsumerCalls(e)
    ensures DequeueSoFar(s0, Apply(s, e))
  {
    if e.Consume? {
      ConsumeGoesOn(s0, s);
    } else {
      OthersTakeNothing(s, e);
    }
  }

  lemma {:induction false} DequeueRuns(s0: State, s: State, es: seq<Event>)
    requires DequeueSoFar(s0, s) && Admissible(s, es) && WithinDequeue(es)
    ensures DequeueSoFar(s0, Exec(s, es))
    decreases |es|
  {
    if es == [] {
    } else {
      DequeueGoesOn(s0, s, es[0]);
      DequeueRuns(s0, Apply(s, es[0]), es[1..]);
    }
  }

  /** spsc_dequeue (spsc_queue.h:157-186): it returns after at most five instructions of its own, and has then either
      changed nothing, or moved the head on by one node and handed out the old dummy, and no other. */
  lemma DequeueReturns(s0: State, es: seq<Event>)
    requires s0.consumer.pc.Idle? && Admissible(Apply(s0, CallDequeue), es) && WithinDequeue(es)
    ensures var s := Exec(Apply(s0, CallDequeue), es);
      && Consumes(es) + StepsLeft(s.consumer.pc) <= 5
      && (s.consumer.pc.Idle? ==> NothingTaken(s0, s) || OneTaken(s0, s))
  {
    DequeueRuns(s0, Apply(s0, CallDequeue), es);
    ConsumerReturns(Apply(s0, CallDequeue), es);
  }

  /** Which of the two is decided at line 170: with NULL the call ends there and then, otherwise it will take. */
  lemma DequeueDecides(s: State)
    requires s.consumer.pc.LoadNext?
    ensures NextOf(s.mem, s.consumer.dead) == NULL ==> ConsumeMove(s) == s.(consumer := s.consumer.(pc := Idle))
    ensures NextOf(s.mem, s.consumer.dead) != NULL ==>
      !ConsumeMove(s).consumer.pc.Idle? && ConsumeMove(s).consumer.next == NextOf(s.mem, s.consumer.dead)
  {
  }

  /** The spsc_queue_empty began in s0. */
  ghost predicate EmptySoFar(s0: State, s: State) {
    && NothingTaken(s0, s) && (s.consumer.pc.PeekHead? || s.consumer.pc.PeekNext? || s.consumer.pc.Idle?)
    && (s.consumer.pc.PeekNext? ==> s.consumer.dead == s0.head)
  }

  lemma {:induction false} EmptyRuns(s0: State, s: State, es: seq<Event>)
    requires EmptySoFar(s0, s) && Admissible(s, es) && WithinDequeue(es)
    ensures EmptySoFar(s0, Exec(s, es))
    decreases |es|
  {
    if es == [] {
    } else {
      if !es[0].Consume? { OthersTakeNothing(s, es[0]); }
      EmptyRuns(s0, Apply(s, es[0]), es[1..]);
    }
  }

  /** spsc_queue_empty (spsc_queue.h:125-132): it returns after two instructions of its own and takes nothing; its
      answer is whether the next word of the head was NULL when the second read it. */
  lemma EmptyReturns(s0: State, es: seq<Event>)
    requires s0.consumer.pc.Idle? && Admissible(Apply(s0, CallEmpty), es) && WithinDequeue(es)
    ensures var s := Exec(Apply(s0, CallEmpty), es);
      && Consumes(es) + StepsLeft(s.consumer.pc) <= 2 && NothingTaken(s0, s)
      && (s.consumer.pc.PeekNext? ==>
            && ConsumeMove(s).consumer.pc.Idle?
            && (ConsumeMove(s).consumer.empty <==> NextOf(s.mem, s0.head) == NULL))
  {
    EmptyRuns(s0, Apply(s0, CallEmpty), es);
    ConsumerReturns(Apply(s0, CallEmpty), es);
  }

  // ---- calls that run alone -------------------------------------------------------------------------------------

  /** No call runs and no store is pending. */
  ghost predicate Still(s: State) {
    s.producer.pc.Resting? && s.consumer.pc.Idle? && s.buffer == []
  }

  lemma StillMemory(s: State, dummy: Addr)
    requires Good(s, dummy) && s.buffer == []
    ensures s.head in s.mem && (NextOf(s.mem, s.head) == NULL <==> |s.chain| == 1)
    ensures |s.chain| > 1 ==> NextOf(s.mem, s.head) == s.chain[1] && PayloadOf(s.mem, s.chain[1]) == s.values[1]
  {
  }

  /** The words the consumer's next step reads exist. */
  predicate ReadsExist(s: State) {
    && (s.consumer.pc.LoadNext? || s.consumer.pc.PeekNext? ==> s.consumer.dead in s.mem)
    && (s.consumer.pc.HandOut? ==> s.consumer.next in s.mem)
  }

  lemma GoodReads(s: State, dummy: Addr)
    requires Good(s, dummy)
    ensures ReadsExist(s)
  {
  }

  function Less(s: State): int { if s.counted then s.len - 1 else s.len }

  /** s0 after line 181, with consumer c. */
  function Moved(s0: State, c: Consumer): State
    requires |s0.chain| > 1 && |s0.values| > 1
  {
    s0.(consumer := c, len := Less(s0), head := s0.chain[1], chain := s0.chain[1..], values := s0.values[1..])
  }

  /** s0 after a whole dequeue of the oldest value. */
  function Dequeued(s0: State, c: Consumer): State
    requires |s0.chain| > 1 && |s0.values| > 1
  {
    Moved(s0, c).(busy := s0.busy - {s0.chain[0]}, taken := s0.taken + [s0.values[1]],
                  returned := s0.returned + [s0.chain[1]], given := s0.given + [s0.chain[0]])
  }

  /** A dequeue that began in s0 and has run alone since. */
  ghost predicate Dequeuing(s0: State, s: State)
    requires |s0.chain| == |s0.values| > 0
  {
    match s.consumer.pc
    case LoadHead => s == s0.(consumer := s.consumer)
    case LoadNext => s == s0.(consumer := s.consumer) && s.consumer.dead == s0.chain[0]
    case SubOne =>
      && s == s0.(consumer := s.consumer) && s.counted
      && |s0.chain| > 1 && s.consumer.dead == s0.chain[0] && s.consumer.next == s0.chain[1]
    case StoreHead =>
      && s == s0.(consumer := s.consumer, len := Less(s0))
      && |s0.chain| > 1 && s.consumer.dead == s0.chain[0] && s.consumer.next == s0.chain[1]
    case HandOut =>
      |s0.chain| > 1 && s == Moved(s0, s.consumer) && s.consumer.dead == s0.chain[0] && s.consumer.next == s0.chain[1]
    case Idle => if |s0.chain| > 1 then s == Dequeued(s0, s.consumer) else s == s0.(consumer := s.consumer)
    case _ => false
  }

  lemma DequeuingStep(s0: State, s: State, dummy: Addr)
    requires Good(s0, dummy) && s0.buffer == [] && Dequeuing(s0, s) && !s.consumer.pc.Idle?
    ensures Dequeuing(s0, ConsumeMove(s))
  {
    StillMemory(s0, dummy);
  }

  /** s0 was left when the enqueue of value in node began, and it has run alone since; the memory may have taken
      stores from the buffer. */
  ghost predicate Enqueuing(s0: State, s: State, node: Addr, value: Data) {
    && s.counted == s0.counted && s.consumer == s0.consumer && s.head == s0.head && s.busy == s0.busy + {node}
    && s.taken == s0.taken && s.returned == s0.returned && s.given == s0.given
    && s.producer.node == node && s.producer.value == value && (s.producer.pc.AddOne? ==> s.counted)
    && (if Preparing(s.producer.pc) then s.chain == s0.chain && s.values == s0.values && s.sent == s0.sent
        else s.chain == s0.chain + [node] && s.values == s0.values + [value] && s.sent == s0.sent + [value])
    && s.len == s0.len + (if s.producer.pc.Resting? && s.counted then 1 else 0)
    && (s.producer.pc.Resting? && s.counted ==> s.buffer == [])
  }

  lemma EnqueuingStep(s0: State, s: State, node: Addr, value: Data)
    requires Enqueuing(s0, s, node, value) && !s.producer.pc.Resting?
    ensures Enabled(s, Produce) ==> Enqueuing(s0, ProduceMove(s), node, value)
    ensures Enqueuing(s0, Apply(s, Drain), node, value)
  {
  }

  /** A teardown of the nodes all has freed released. */
  ghost predicate TearingDown(all: seq<Addr>, s: State, dummy: Addr, released: seq<Addr>) {
    Good(s, dummy) && Still(s) && released + s.chain == all
  }

  lemma TearingStarts(s: State, dummy: Addr)
    requires Good(s, dummy) && Still(s)
    ensures TearingDown(s.chain, s, dummy, [])
  {
    assert [] + s.chain == s.chain;
  }

  lemma TearingEnds(all: seq<Addr>, s: State, dummy: Addr, released: seq<Addr>)
    requires TearingDown(all, s, dummy, released) && |s.chain| == 1
    ensures released + [s.head] == all
  {
    assert s.chain == [s.head];
  }
}
