/** Whether the consumer can miss an enqueue that has returned. */
module SpscReturned {
  import opened SpscModel
  import opened SpscInvariant
  import opened SpscTheorems
  import opened SpscCalls

  /** With a counter, a link on its way is that of the enqueue that is running: line 152 waits for it. */
  ghost predicate OwnLinks(s: State) {
    s.counted && |s.chain| > 0
    && (s.producer.pc.Resting? ==> s.buffer == [])
    && (s.producer.pc.AddOne? ==> s.producer.node == s.chain[|s.chain| - 1])
    && (forall i :: 0 <= i < |s.buffer| && s.buffer[i].SetNext? && s.buffer[i].next != NULL ==>
          (s.producer.pc.StoreTail? || s.producer.pc.AddOne?) && s.buffer[i].next == s.producer.node)
  }

  lemma OwnLinksKept(s: State, e: Event, dummy: Addr)
    requires Good(s, dummy) && OwnLinks(s) && Enabled(s, e)
    ensures OwnLinks(Apply(s, e))
  {
    match e
    case Produce => ProduceOwnLinks(s, dummy);
    case Consume => if s.consumer.pc.StoreHead? { DropMemory(s); }
    case _ =>
  }

  lemma ProduceOwnLinks(s: State, dummy: Addr)
    requires Good(s, dummy) && OwnLinks(s) && Enabled(s, Produce)
    ensures OwnLinks(ProduceMove(s))
  {
  }

  lemma {:induction false} OwnLinksAlways(s: State, es: seq<Event>, dummy: Addr)
    requires Good(s, dummy) && OwnLinks(s) && Admissible(s, es)
    ensures OwnLinks(Exec(s, es))
    decreases |es|
  {
    if es == [] {
    } else {
      GoodKept(s, es[0], dummy);
      OwnLinksKept(s, es[0], dummy);
      OwnLinksAlways(Apply(s, es[0]), es[1..], dummy);
    }
  }

  /** With a counter (HAVE_Q_LEN) an enqueue that has returned is never missed: behind a NULL next there is
      nothing, or the node of one enqueue between its store of line 148 and its return. */
  lemma ReturnedIsSeen(s: State, dummy: Addr, garbage: Data, es: seq<Event>)
    requires Reachable(s, true, dummy, garbage, es) && (s.consumer.pc.LoadNext? || s.consumer.pc.PeekNext?)
    requires NextOf(s.mem, s.consumer.dead) == NULL
    ensures |s.chain| == 1 || (|s.chain| == 2 && s.chain[1] == s.producer.node
                               && (s.producer.pc.StoreTail? || s.producer.pc.AddOne?))
    ensures s.producer.pc.Resting? ==> Offered(es) == s.taken
  {
    InitGood(true, dummy, garbage);
    GoodAlways(Init(true, dummy, garbage), es, dummy);
    OwnLinksAlways(Init(true, dummy, garbage), es, dummy);
    StoreIsPending(s.mem, s.buffer, s.head);
    if |s.chain| > 1 {
      assert NextOf(LandAll(s.mem, s.buffer), s.head) == s.chain[1];
      assert s.chain[1] == s.producer.node == s.chain[|s.chain| - 1];
    }
    if s.producer.pc.Resting? { RestingSent(s, es, garbage, dummy); }
  }

  lemma RestingSent(s: State, es: seq<Event>, garbage: Data, dummy: Addr)
    requires Reachable(s, true, dummy, garbage, es) && Good(s, dummy) && |s.chain| == 1
    requires s.producer.pc.Resting? && !s.consumer.pc.HandOut?
    ensures Offered(es) == s.taken
  {
    OfferedIsAccepted(Init(true, dummy, garbage), es);
    assert Accepted(Init(true, dummy, garbage)) + Offered(es) == Offered(es);
    assert Accepted(s) == s.sent;
    assert s.values[1..] == [];
  }

  // ---- without a counter -------------------------------------------------------------------------------

  lemma {:induction false} ExecMore(s: State, es: seq<Event>, e: Event)
    requires Admissible(s, es) && Enabled(Exec(s, es), e)
    ensures Admissible(s, es + [e]) && Exec(s, es + [e]) == Apply(Exec(s, es), e)
    decreases |es|
  {
    if es == [] {
      assert [] + [e] == [e] && [e][1..] == [];
    } else {
      assert (es + [e])[1..] == es[1..] + [e];
      ExecMore(Apply(s, es[0]), es[1..], e);
    }
  }

  lemma Next(s0: State, es: seq<Event>, s: State, e: Event) returns (es': seq<Event>, s': State)
    requires Admissible(s0, es) && s == Exec(s0, es) && Enabled(s, e)
    ensures Admissible(s0, es') && s' == Exec(s0, es') == Apply(s, e)
  {
    ExecMore(s0, es, e);
    es', s' := es + [e], Apply(s, e);
  }

  /** A whole spsc_enqueue, none of whose stores lands. */
  lemma EnqueuesUnseen(s0: State, node: Addr, value: Data) returns (es: seq<Event>, s: State)
    requires !s0.counted && s0.producer.pc.Resting? && node != NULL && node !in s0.busy
    ensures Admissible(s0, es) && s == Exec(s0, es)
    ensures s.producer.pc.Resting? && s.sent == s0.sent + [value]
    ensures s.mem == s0.mem && s.head == s0.head && s.taken == s0.taken && s.consumer == s0.consumer
  {
    es, s := [], s0;
    es, s := Next(s0, es, s, CallEnqueue(node, value));
    es, s := Next(s0, es, s, Produce);
    es, s := Next(s0, es, s, Produce);
    es, s := Next(s0, es, s, Produce);
    es, s := Next(s0, es, s, Produce);
  }

  /** Without a counter an enqueue that has returned can be missed: from any state in which nothing is queued,
      pending or running, and with any node, a run follows after which spsc_enqueue is back and
      spsc_queue_empty says that the queue is empty. */
  lemma ReturnedIsMissed(s0: State, dummy: Addr, node: Addr, value: Data) returns (es: seq<Event>)
    requires Good(s0, dummy) && Still(s0) && !s0.counted && s0.sent == s0.taken && node != NULL && node !in s0.busy
    ensures Admissible(s0, es)
    ensures var s := Exec(s0, es);
      && s.producer.pc.Resting? && s.consumer.pc.Idle? && s.consumer.empty
      && s.sent == s0.sent + [value] && s.taken == s0.taken
  {
    StillMemory(s0, dummy);
    assert |s0.values| == 1;
    var s;
    es, s := EnqueuesUnseen(s0, node, value);
    es, s := Next(s0, es, s, CallEmpty);
    es, s := Next(s0, es, s, Consume);
    es, s := Next(s0, es, s, Consume);
  }
}
