/** Why delayed stores do no harm: whatever part of the producer's buffer has landed, following next
    pointers from the head stays inside the chain, over nodes that are complete. */
module SpscInvariant {
  import opened SpscModel

  /** No store on its way writes to the node. */
  ghost predicate Settled(buffer: seq<Store>, a: Addr) {
    forall i :: 0 <= i < |buffer| ==> buffer[i].SetTail? || buffer[i].at != a
  }

  ghost predicate PayloadSettled(buffer: seq<Store>, a: Addr) {
    forall i :: 0 <= i < |buffer| ==> !buffer[i].SetPayload? || buffer[i].at != a
  }

  /** The store of line 144 to the node is not on its way. */
  ghost predicate InitSettled(buffer: seq<Store>, a: Addr) {
    forall i :: 0 <= i < |buffer| ==> buffer[i] != SetNext(a, NULL)
  }

  /** From chain[0] on, memory is what a consumer may walk: a next word is NULL, or it names the
      node after it in the chain, with its initial next and its payload landed, and no store to the node
      it left is pending. */
  ghost predicate Walkable(mem: map<Addr, Node>, buffer: seq<Store>, chain: seq<Addr>, values: seq<Data>)
    requires |chain| == |values|
  {
    chain != [] &&
    (NextOf(mem, chain[0]) != NULL ==>
       && |chain| > 1 && NextOf(mem, chain[0]) == chain[1] && chain[1] in mem && PayloadOf(mem, chain[1]) == values[1]
       && Settled(buffer, chain[0]) && PayloadSettled(buffer, chain[1]) && InitSettled(buffer, chain[1])
       && Walkable(mem, buffer, chain[1..], values[1..]))
  }

  /** And it stays so whenever the next pending store lands. */
  ghost predicate AlwaysWalkable(mem: map<Addr, Node>, buffer: seq<Store>, chain: seq<Addr>, values: seq<Data>)
    requires |chain| == |values|
    decreases |buffer|
  {
    && Walkable(mem, buffer, chain, values)
    && (buffer != [] ==> AlwaysWalkable(Land(mem, buffer[0]), buffer[1..], chain, values))
  }

  /** Once everything has landed the chain is linked from end to end. */
  ghost predicate Linked(mem: map<Addr, Node>, chain: seq<Addr>, values: seq<Data>)
    requires |chain| == |values|
  {
    chain != [] &&
    if |chain| == 1 then NextOf(mem, chain[0]) == NULL
    else
      && chain[1] != NULL && NextOf(mem, chain[0]) == chain[1]
      && chain[1] in mem && PayloadOf(mem, chain[1]) == values[1]
      && Linked(mem, chain[1..], values[1..])
  }

  // ---- walks ------------------------------------------------------------------------------------------

  lemma {:induction false} LinkedIsWalkable(mem: map<Addr, Node>, chain: seq<Addr>, values: seq<Data>)
    requires |chain| == |values| && Linked(mem, chain, values)
    ensures Walkable(mem, [], chain, values)
  {
    if |chain| == 1 {
    } else {
      LinkedIsWalkable(mem, chain[1..], values[1..]);
    }
  }

  predicate SameNode(mem: map<Addr, Node>, mem': map<Addr, Node>, a: Addr) {
    && NextOf(mem', a) == NextOf(mem, a) && PayloadOf(mem', a) == PayloadOf(mem, a) && (a in mem ==> a in mem')
  }

  /** A store to a node outside the chain changes no walk. */
  lemma {:induction false} WalkFrame(mem: map<Addr, Node>, mem': map<Addr, Node>, buffer: seq<Store>, chain: seq<Addr>,
                                     values: seq<Data>)
    requires |chain| == |values| && Walkable(mem, buffer, chain, values)
    requires forall i :: 0 <= i < |chain| ==> SameNode(mem, mem', chain[i])
    ensures Walkable(mem', buffer, chain, values)
  {
    if NextOf(mem, chain[0]) == NULL {
    } else {
      WalkFrame(mem, mem', buffer, chain[1..], values[1..]);
    }
  }

  lemma {:induction false} LinkedFrame(mem: map<Addr, Node>, mem': map<Addr, Node>, chain: seq<Addr>, values: seq<Data>)
    requires |chain| == |values| && Linked(mem, chain, values)
    requires forall i :: 0 <= i < |chain| ==> SameNode(mem, mem', chain[i])
    ensures Linked(mem', chain, values)
  {
    if |chain| == 1 {
    } else {
      LinkedFrame(mem, mem', chain[1..], values[1..]);
    }
  }

  /** The store writes to no node of the chain. */
  predicate Misses(st: Store, chain: seq<Addr>) {
    st.SetTail? || st.at !in chain
  }

  lemma {:induction false} WalkAppend(mem: map<Addr, Node>, buffer: seq<Store>, st: Store, chain: seq<Addr>,
                                      values: seq<Data>)
    requires |chain| == |values| && Walkable(mem, buffer, chain, values) && Misses(st, chain)
    ensures Walkable(mem, buffer + [st], chain, values)
  {
    if NextOf(mem, chain[0]) == NULL {
    } else {
      WalkAppend(mem, buffer, st, chain[1..], values[1..]);
    }
  }

  /** A new node at the end, and the store that will link it, change no walk either. */
  lemma {:induction false} WalkExtend(mem: map<Addr, Node>, buffer: seq<Store>, chain: seq<Addr>, values: seq<Data>,
                                      node: Addr, value: Data)
    requires |chain| == |values| && Walkable(mem, buffer, chain, values)
    requires node != NULL && forall i, j :: 0 <= i < j < |chain| ==> chain[i] != chain[j]
    ensures Walkable(mem, buffer + [SetNext(chain[|chain| - 1], node)], chain + [node], values + [value])
  {
    var st := SetNext(chain[|chain| - 1], node);
    if NextOf(mem, chain[0]) == NULL {
    } else {
      WalkExtend(mem, buffer, chain[1..], values[1..], node, value);
      assert (chain + [node])[1..] == chain[1..] + [node];
      assert (values + [value])[1..] == values[1..] + [value];
    }
  }

  lemma {:induction false} LinkedExtend(mem: map<Addr, Node>, chain: seq<Addr>, values: seq<Data>,
                                        node: Addr, value: Data)
    requires |chain| == |values| && Linked(mem, chain, values)
    requires forall i, j :: 0 <= i < j < |chain| ==> chain[i] != chain[j]
    requires node != NULL && node !in chain && node in mem && NextOf(mem, node) == NULL && PayloadOf(mem, node) == value
    ensures Linked(Land(mem, SetNext(chain[|chain| - 1], node)), chain + [node], values + [value])
  {
    var mem' := Land(mem, SetNext(chain[|chain| - 1], node));
    assert (chain + [node])[1..] == chain[1..] + [node];
    assert (values + [value])[1..] == values[1..] + [value];
    if |chain| == 1 {
      assert Linked(mem', [node], [value]);
    } else {
      LinkedExtend(mem, chain[1..], values[1..], node, value);
    }
  }

  // ---- buffers ------------------------------------------------------------------------------------------

  lemma {:induction false} LandAllAppend(mem: map<Addr, Node>, buffer: seq<Store>, st: Store)
    ensures LandAll(mem, buffer + [st]) == Land(LandAll(mem, buffer), st)
    decreases |buffer|
  {
    if buffer == [] {
      assert [st][1..] == [];
    } else {
      assert (buffer + [st])[1..] == buffer[1..] + [st];
      LandAllAppend(Land(mem, buffer[0]), buffer[1..], st);
    }
  }

  lemma {:induction false} TailSeenAppend(tail: Addr, buffer: seq<Store>, st: Store)
    ensures TailSeen(tail, buffer + [st]) == LandTail(TailSeen(tail, buffer), st)
    decreases |buffer|
  {
    if buffer == [] {
      assert [st][1..] == [];
    } else {
      assert (buffer + [st])[1..] == buffer[1..] + [st];
      TailSeenAppend(LandTail(tail, buffer[0]), buffer[1..], st);
    }
  }

  /** The producer issues a store that misses the chain. */
  lemma {:induction false} AppendMiss(mem: map<Addr, Node>, buffer: seq<Store>, st: Store, chain: seq<Addr>,
                                      values: seq<Data>)
    requires |chain| == |values| && AlwaysWalkable(mem, buffer, chain, values) && Misses(st, chain)
    ensures AlwaysWalkable(mem, buffer + [st], chain, values)
    decreases |buffer|
  {
    WalkAppend(mem, buffer, st, chain, values);
    if buffer == [] {
      assert [st][1..] == [];
      WalkFrame(mem, Land(mem, st), [], chain, values);
      assert ([] + [st])[0] == st;
    } else {
      assert (buffer + [st])[1..] == buffer[1..] + [st];
      AppendMiss(Land(mem, buffer[0]), buffer[1..], st, chain, values);
    }
  }

  /** Line 148: the producer issues the store that links a complete node behind the last one. */
  lemma {:induction false} AppendLink(mem: map<Addr, Node>, buffer: seq<Store>, chain: seq<Addr>, values: seq<Data>,
                                      node: Addr, value: Data)
    requires |chain| == |values|
    requires AlwaysWalkable(mem, buffer, chain, values) && Linked(LandAll(mem, buffer), chain, values)
    requires forall i, j :: 0 <= i < j < |chain| ==> chain[i] != chain[j]
    requires node != NULL && node !in chain && node in LandAll(mem, buffer)
    requires NextOf(LandAll(mem, buffer), node) == NULL && PayloadOf(LandAll(mem, buffer), node) == value
    ensures AlwaysWalkable(mem, buffer + [SetNext(chain[|chain| - 1], node)], chain + [node], values + [value])
    decreases |buffer|
  {
    var st := SetNext(chain[|chain| - 1], node);
    WalkExtend(mem, buffer, chain, values, node, value);
    if buffer == [] {
      LinkedExtend(mem, chain, values, node, value);
      LinkedIsWalkable(Land(mem, st), chain + [node], values + [value]);
      assert ([] + [st])[0] == st && ([] + [st])[1..] == [];
    } else {
      assert (buffer + [st])[1..] == buffer[1..] + [st];
      AppendLink(Land(mem, buffer[0]), buffer[1..], chain, values, node, value);
    }
  }

  /** Line 181: the consumer moves past a node whose link has landed. */
  lemma {:induction false} DropFirst(mem: map<Addr, Node>, buffer: seq<Store>, chain: seq<Addr>, values: seq<Data>)
    requires |chain| == |values| && AlwaysWalkable(mem, buffer, chain, values) && NextOf(mem, chain[0]) != NULL
    ensures |chain| > 1 && AlwaysWalkable(mem, buffer, chain[1..], values[1..]) && Settled(buffer, chain[0])
    decreases |buffer|
  {
    if buffer == [] {
    } else {
      assert buffer[0].SetTail? || buffer[0].at != chain[0];
      DropFirst(Land(mem, buffer[0]), buffer[1..], chain, values);
    }
  }

  lemma {:induction false} BufferFrame(mem: map<Addr, Node>, buffer: seq<Store>, chain: seq<Addr>, values: seq<Data>,
                                       node: Addr, junk: Node)
    requires |chain| == |values| && AlwaysWalkable(mem, buffer, chain, values) && node !in chain
    ensures AlwaysWalkable(mem[node := junk], buffer, chain, values)
    decreases |buffer|
  {
    WalkFrame(mem, mem[node := junk], buffer, chain, values);
    if buffer == [] {
    } else {
      var junk' := Land(mem[node := junk], buffer[0])[node];
      assert Land(mem[node := junk], buffer[0]) == Land(mem, buffer[0])[node := junk'];
      BufferFrame(Land(mem, buffer[0]), buffer[1..], chain, values, node, junk');
    }
  }
}
