/** What the calls of the MCS lock answer, in every run and whatever the nodes hold. */
module McsCalls {
  import opened McsModel
  import opened McsInvariant

  // ---- the calls of one thread ----------------------------------------------------------------------------

  function Count(tids: seq<Tid>, t: Tid): nat {
    if tids == [] then 0 else Count(tids[..|tids| - 1], t) + if tids[|tids| - 1] == t then 1 else 0
  }

  /** t's calls of mcs_lock in the run. */
  function LockCalls(es: seq<Event>, t: Tid): nat {
    if es == [] then 0 else (if es[0].CallLock? && es[0].t == t then 1 else 0) + LockCalls(es[1..], t)
  }

  function UnlockCalls(es: seq<Event>, t: Tid): nat {
    if es == [] then 0 else (if es[0].CallUnlock? && es[0].t == t then 1 else 0) + UnlockCalls(es[1..], t)
  }

  /** t's trylock finds the lock free: line 84 stores. */
  predicate TryWins(s: State, e: Event, t: Tid) {
    e == Step(t) && t < |s.threads| && s.threads[t].pc.TrySwap? && s.tail == NULL
  }

  function TriesWon(s: State, es: seq<Event>, t: Tid): nat
    requires Possible(s, es)
    decreases |es|
  {
    if es == [] then 0 else (if TryWins(s, es[0], t) then 1 else 0) + TriesWon(Apply(s, es[0]), es[1..], t)
  }

  /** Inside mcs_lock. */
  predicate Asking(s: State, t: Tid)
    requires t < |s.threads|
  {
    InLock(s.threads[t].pc) && !s.threads[t].pc.TrySwap?
  }

  function One(b: bool): int { if b then 1 else 0 }

  /** How often t has been granted the lock, and how often it has released it, including what it waits for. */
  function Due(s: State, t: Tid): int
    requires t < |s.threads|
  {
    Count(s.granted, t) + One(Asking(s, t))
  }

  function Released(s: State, t: Tid): int
    requires t < |s.threads|
  {
    Count(s.served, t) + One(InUnlock(s.threads[t].pc))
  }

  /** Nothing, when t has the lock exactly if it was granted once more often than released. */
  function Odd(s: State, t: Tid): int
    requires t < |s.threads|
  {
    Count(s.granted, t) - Count(s.served, t) - One(Critical(s.threads[t].pc))
  }

  lemma LockDue(s: State, t: Tid)
    requires t < |s.threads| && InLock(s.threads[t].pc)
    ensures |LockMove(s, t).threads| == |s.threads|
    ensures Due(LockMove(s, t), t) == Due(s, t) + One(TryWins(s, Step(t), t))
    ensures Released(LockMove(s, t), t) == Released(s, t) && Odd(LockMove(s, t), t) == Odd(s, t)
  {
    assert (s.granted + [t])[..|s.granted|] == s.granted;
  }

  lemma UnlockDue(s: State, t: Tid)
    requires t < |s.threads| && InUnlock(s.threads[t].pc)
    ensures |UnlockMove(s, t).threads| == |s.threads|
    ensures Due(UnlockMove(s, t), t) == Due(s, t) && Released(UnlockMove(s, t), t) == Released(s, t)
    ensures Odd(UnlockMove(s, t), t) == Odd(s, t)
  {
    assert (s.served + [t])[..|s.served|] == s.served;
  }

  lemma OthersDue(s: State, e: Event, t: Tid)
    requires Enabled(s, e) && t < |s.threads| && (e.Scribble? || e.t != t)
    ensures |Apply(s, e).threads| == |s.threads| && Apply(s, e).threads[t] == s.threads[t]
    ensures Count(Apply(s, e).granted, t) == Count(s.granted, t) && Count(Apply(s, e).served, t) == Count(s.served, t)
  {
    if e.Step? {
      OnlyMover(s, e.t);
      CountOther(s.granted, e.t, t);
      CountOther(s.served, e.t, t);
    }
  }

  /** A step grants or gives back the lock for its own thread only. */
  lemma OnlyMover(s: State, u: Tid)
    requires Enabled(s, Step(u))
    ensures var s' := Apply(s, Step(u));
      && |s'.threads| == |s.threads| && (forall t :: 0 <= t < |s.threads| && t != u ==> s'.threads[t] == s.threads[t])
      && (s'.granted == s.granted || s'.granted == s.granted + [u])
      && (s'.served == s.served || s'.served == s.served + [u])
  {
  }

  lemma CountOther(tids: seq<Tid>, u: Tid, t: Tid)
    requires u != t
    ensures Count(tids + [u], t) == Count(tids, t)
  {
    assert (tids + [u])[..|tids|] == tids;
  }

  lemma OneDue(s: State, e: Event, t: Tid)
    requires Enabled(s, e) && t < |s.threads|
    ensures |Apply(s, e).threads| == |s.threads|
    ensures Due(Apply(s, e), t) == Due(s, t) + One(e.CallLock? && e.t == t) + One(TryWins(s, e, t))
    ensures Released(Apply(s, e), t) == Released(s, t) + One(e.CallUnlock? && e.t == t)
    ensures Odd(Apply(s, e), t) == Odd(s, t)
  {
    if e.Scribble? || e.t != t {
      OthersDue(s, e, t);
    } else if e.Step? {
      if InLock(s.threads[t].pc) { LockDue(s, t); } else { UnlockDue(s, t); }
    }
  }

  lemma {:induction false} DueAlways(s: State, es: seq<Event>, t: Tid)
    requires Possible(s, es) && t < |s.threads|
    ensures |Exec(s, es).threads| == |s.threads|
    ensures Due(Exec(s, es), t) == Due(s, t) + LockCalls(es, t) + TriesWon(s, es, t)
    ensures Released(Exec(s, es), t) == Released(s, t) + UnlockCalls(es, t) && Odd(Exec(s, es), t) == Odd(s, t)
    decreases |es|
  {
    if es == [] {
    } else {
      OneDue(s, es[0], t);
      DueAlways(Apply(s, es[0]), es[1..], t);
    }
  }

  /** Every mcs_lock that has returned, and every trylock that stored, was granted the lock once; every mcs_unlock
      that has returned gave it back once; and a thread is between acquire and release exactly while it has
      been granted the lock once more often than it gave it back. */
  lemma CallsAreGranted(n: nat, nodes: map<NodeId, LockNode>, es: seq<Event>, t: Tid)
    requires Possible(Init(n, nodes), es) && t < n
    ensures var s := Exec(Init(n, nodes), es);
      && t < |s.threads|
      && Count(s.granted, t) + One(Asking(s, t)) == LockCalls(es, t) + TriesWon(Init(n, nodes), es, t)
      && Count(s.served, t) + One(InUnlock(s.threads[t].pc)) == UnlockCalls(es, t)
      && Count(s.granted, t) == Count(s.served, t) + One(Critical(s.threads[t].pc))
  {
    DueAlways(Init(n, nodes), es, t);
  }

  // ---- mcs_trylock ------------------------------------------------------------------------------------------

  /** No event of the run is t's. */
  ghost predicate WithoutThread(es: seq<Event>, t: Tid) {
    forall i :: 0 <= i < |es| ==> es[i].Scribble? || es[i].t != t
  }

  lemma {:induction false} OthersLeaveThread(s: State, es: seq<Event>, t: Tid)
    requires Possible(s, es) && t < |s.threads| && WithoutThread(es, t)
    ensures |Exec(s, es).threads| == |s.threads| && Exec(s, es).threads[t] == s.threads[t]
    decreases |es|
  {
    if es == [] {
    } else {
      OthersDue(s, es[0], t);
      OthersLeaveThread(Apply(s, es[0]), es[1..], t);
    }
  }

  /** The trylock of t with node found the lock free in s and has taken it. */
  ghost predicate Taken(s: State, s': State, t: Tid, node: NodeId) {
    && t < |s'.threads| && s'.threads[t].pc.Holding? && s'.threads[t].node == node
    && s'.tail == node && s'.nodes == s.nodes && s'.queue == s.queue + [t] && s'.served == s.served
    && s'.requests == s.requests + [t] && s'.granted == s.granted + [t]
  }

  /** It found the lock taken, and is back with nothing done. */
  ghost predicate Refused(s: State, s': State, t: Tid) {
    t < |s'.threads| && s'.threads[t].pc.Idle? && s' == s.(threads := s'.threads)
  }

  /** mcs_trylock (mcs_lock.h:82-88) never waits: whatever the others do in between, the thread's next step is its
      last, and the answer is the state of the lock at that instant. */
  lemma TrylockAnswers(s: State, t: Tid, node: NodeId, others: seq<Event>)
    requires Enabled(s, CallTry(t, node))
    requires Possible(Apply(s, CallTry(t, node)), others) && WithoutThread(others, t)
    ensures var s1 := Exec(Apply(s, CallTry(t, node)), others);
      && Enabled(s1, Step(t))
      && var s2 := Apply(s1, Step(t)); if s1.tail == NULL then Taken(s1, s2, t, node) else Refused(s1, s2, t)
  {
    OthersLeaveThread(Apply(s, CallTry(t, node)), others, t);
  }
}
