/** How fast the tags of the CAS queue grow. A failed attempt leaves its tag bits in `countnode`,
    so under contention one won swap may double the tag; this module says that it never does
    more, and that a run does so every time. */
module QueueTags {
  import opened Wrappers
  import opened Bits
  import opened Counting
  import opened LockFreeQueue
  import opened QueueInvariant
  import opened QueueTheorems
  import opened QueueTightness

  // ----- The bound -----

  /** The tag a thread has accumulated so far. */
  function Accumulated(pc: Pc): nat {
    match pc
    case ReadTail(_, _, acc) => acc
    case SwingTail(_, _, acc, _) => acc
    case _ => 0
  }

  ghost predicate TagsFit(s: State) {
    && |s.chain| >= 1 && s.tail.Tagged? && s.tail.tag < Pow2(|s.chain| - 1)
    && (forall t {:trigger s.thr[t]} :: t in s.thr ==> Accumulated(s.thr[t]) < Pow2(|s.chain|))
  }

  /** What a step may do to the tail: nothing, or publish the winner's tag. */
  lemma TailMoves(s: State, step: Step)
    requires Inv(s) && Enabled(s, step)
    ensures var s' := Apply(s, step);
      || (s'.tail == s.tail && |s'.chain| == |s.chain|)
      || (&& step.Advance? && s.thr[step.t].SwingTail? && |s'.chain| == |s.chain| + 1
          && s'.tail == Tagged(s.thr[step.t].a, s.thr[step.t].acc))
  {
    if step.Advance? {
      assert LocalOk(s, step.t, s.thr[step.t]);
    }
  }

  /** What a step may do to what a thread has accumulated: nothing, forget it, or OR in the tag
      after the one it reads. */
  ghost predicate AccumulatedNext(s: State, s': State, t: Tid)
    requires s.tail.Tagged? && t in s'.thr
  {
    var acc' := Accumulated(s'.thr[t]);
    || acc' == 0
    || (t in s.thr && acc' == Accumulated(s.thr[t]))
    || (t in s.thr && acc' == Or(Accumulated(s.thr[t]), s.tail.tag + 1))
  }

  lemma OwnAccumulated(s: State, t: Tid)
    requires Enabled(s, Advance(t)) && s.tail.Tagged? && s.bits == None
    requires s.thr[t].LinkPrev? ==> s.mem[s.thr[t].seen.adr].next == Null
    ensures t in Move(s, t).thr && AccumulatedNext(s, Move(s, t), t)
  {
  }

  lemma OthersStand(s: State, u: Tid, t: Tid)
    requires Enabled(s, Advance(u)) && u != t
    ensures t in Move(s, u).thr <==> t in s.thr
    ensures t in s.thr ==> Move(s, u).thr[t] == s.thr[t]
  {
  }

  lemma StartAccumulates(s: State, step: Step, t: Tid)
    requires Enabled(s, step) && !step.Advance? && s.tail.Tagged? && t in Apply(s, step).thr
    ensures AccumulatedNext(s, Apply(s, step), t)
  {
  }

  lemma AccumulatedMoves(s: State, step: Step, t: Tid)
    requires Inv(s) && Enabled(s, step) && s.tail.Tagged? && t in Apply(s, step).thr
    ensures AccumulatedNext(s, Apply(s, step), t)
  {
    if !step.Advance? {
      StartAccumulates(s, step, t);
    } else if step.t == t {
      if s.thr[t].LinkPrev? {
        LinkFindsNull(s, t);
      }
      OwnAccumulated(s, t);
    } else {
      OthersStand(s, step.t, t);
    }
  }

  lemma FitNext(s: State, s': State)
    requires TagsFit(s) && s'.tail.Tagged? && forall t :: t in s'.thr ==> AccumulatedNext(s, s', t)
    requires
      || (s'.tail == s.tail && |s'.chain| == |s.chain|)
      || (|s'.chain| == |s.chain| + 1 && exists t :: t in s.thr && s'.tail.tag == Accumulated(s.thr[t]))
    ensures TagsFit(s')
  {
    var n := |s.chain|;
    assert Pow2(n) == 2 * Pow2(n - 1) && Pow2(n + 1) == 2 * Pow2(n);
    forall t | t in s'.thr ensures Accumulated(s'.thr[t]) < Pow2(n) {
      assert AccumulatedNext(s, s', t);
      if t in s.thr {
        OrWidth(Accumulated(s.thr[t]), s.tail.tag + 1, n);
      }
    }
  }

  lemma StepTagsFit(s: State, step: Step)
    requires Inv(s) && Enabled(s, step) && TagsFit(s)
    ensures TagsFit(Apply(s, step))
  {
    var s' := Apply(s, step);
    TailMoves(s, step);
    forall t | t in s'.thr ensures AccumulatedNext(s, s', t) {
      AccumulatedMoves(s, step, t);
    }
    FitNext(s, s');
  }

  lemma {:induction false} RunTagsFit(s: State, steps: seq<Step>)
    requires Inv(s) && Runs(s, steps) && TagsFit(s)
    ensures TagsFit(End(s, steps))
    decreases |steps|
  {
    if steps != [] {
      StepTagsFit(s, steps[0]);
      StepInv(s, steps[0]);
      RunTagsFit(Apply(s, steps[0]), steps[1..]);
    }
  }

  /** After n won tail swaps the tail's tag is below 2^n: sixteen bits are enough for the first
      sixteen, whatever the threads do. */
  lemma TagBelow(s: State)
    requires Reachable(s)
    ensures Last(s) >= 0 && s.tail.Tagged? && s.tail.tag < Pow2(Last(s))
  {
    var s0: State, steps: seq<Step> :| Init(s0) && Runs(s0, steps) && End(s0, steps) == s;
    InitInv(s0);
    RunTagsFit(s0, steps);
  }

  // ----- The run that reaches it -----

  /** t is about to read the tail, with the tag acc accumulated. */
  ghost predicate AboutToRead(s: State, t: Tid, acc: nat) {
    t in s.thr && s.thr[t].ReadTail? && s.thr[t].a in s.mem && s.thr[t].acc == acc
  }

  /** t has read the present tail. */
  ghost predicate HasRead(s: State, t: Tid, acc: nat, tail: Ptr) {
    t in s.thr && s.thr[t].SwingTail? && s.thr[t].a in s.mem && s.thr[t].acc == acc && s.thr[t].seen == tail
  }

  /** Nothing but the threads of w and the nodes has changed, and no node has left the memory. */
  ghost predicate OnlyMoved(s: State, s': State, w: set<Tid>) {
    && s'.tail == s.tail && s'.chain == s.chain && s'.limit == s.limit && s'.bits == s.bits
    && s'.thr.Keys == s.thr.Keys && s.mem.Keys <= s'.mem.Keys
    && forall t :: t in s.thr && t !in w ==> s'.thr[t] == s.thr[t]
  }

  /** The threads of w are idle and there is a node for each. */
  ghost predicate Waiting(s: State, w: set<Tid>, free: set<Addr>) {
    && s.limit.None? && s.bits.None? && w <= s.thr.Keys && (forall t :: t in w ==> s.thr[t] == Idle)
    && Stocked(s, free) && |free| >= |w|
  }

  /** Every thread of w starts an Enqueue and fills its node. */
  lemma {:induction false} PrepareAll(p: iset<State>, s: State, w: set<Tid>, d: Data, free: set<Addr>) returns (s': State)
    requires Walkable(p) && s in p && Waiting(s, w, free)
    ensures s' in p && OnlyMoved(s, s', w) && forall t :: t in w ==> AboutToRead(s', t, 0)
    decreases w
  {
    if w == {} {
      return s;
    }
    var t :| t in w;
    var a :| a in free;
    var s1 := Walk(p, s, StartEnqueue(t, d));
    var s2 := SoloPrepare(p, s1, t, a);
    s' := PrepareAll(p, s2, w - {t}, d, free - {a});
    assert s'.thr[t] == s2.thr[t];
  }

  /** Every thread of w reads the tail. */
  lemma {:induction false} ReadAll(p: iset<State>, s: State, w: set<Tid>, acc: nat, acc': nat) returns (s': State)
    requires Walkable(p) && s in p && s.bits == None && s.tail.Tagged? && acc' == Or(acc, s.tail.tag + 1)
    requires forall t :: t in w ==> AboutToRead(s, t, acc)
    ensures s' in p && OnlyMoved(s, s', w) && forall t :: t in w ==> HasRead(s', t, acc', s.tail)
    decreases w
  {
    if w == {} {
      return s;
    }
    var t :| t in w;
    var s1 := Walk(p, s, Advance(t));
    s' := ReadAll(p, s1, w - {t}, acc, acc');
    assert s'.thr[t] == s1.thr[t];
  }

  /** Every thread of w finds that the tail has moved on. */
  lemma {:induction false} LoseAll(p: iset<State>, s: State, w: set<Tid>, acc: nat, seen: Ptr) returns (s': State)
    requires Walkable(p) && s in p && s.tail != seen && forall t :: t in w ==> HasRead(s, t, acc, seen)
    ensures s' in p && OnlyMoved(s, s', w) && forall t :: t in w ==> AboutToRead(s', t, acc)
    decreases w
  {
    if w == {} {
      return s;
    }
    var t :| t in w;
    var s1 := Walk(p, s, Advance(t));
    s' := LoseAll(p, s1, w - {t}, acc, seen);
    assert s'.thr[t] == s1.thr[t];
  }

  /** 2^n - 1 with the next bit. */
  lemma OrNextBit(n: nat)
    ensures Or(Pow2(n) - 1, Pow2(n)) == Pow2(n + 1) - 1
  {
    ShlIsProduct(1, n);
    ShlIsProduct(0, n);
    OrFields(0, Pow2(n) - 1, 1, 0, n);
    OrZero(Pow2(n) - 1);
    OrZero(1);
  }

  /** After n rounds: n won swaps, the tag 2^n - 1, and the threads of w still to win. */
  ghost predicate AfterRounds(s: State, w: set<Tid>, n: nat) {
    && s.bits == None && s.tail.Tagged? && s.tail.tag == Pow2(n) - 1 && Last(s) == n
    && forall u :: u in w ==> AboutToRead(s, u, Pow2(n) - 1)
  }

  /** All threads of w read the same tail, one wins, and the tag has doubled. */
  lemma Round(p: iset<State>, s: State, w: set<Tid>, t: Tid, n: nat) returns (s': State)
    requires Walkable(p) && s in p && AfterRounds(s, w, n) && t in w
    ensures s' in p && s'.thr.Keys == s.thr.Keys && s'.limit == s.limit && AfterRounds(s', w - {t}, n + 1)
  {
    OrNextBit(n);
    var acc' := Pow2(n + 1) - 1;
    assert acc' > Pow2(n) - 1;
    var s1 := ReadAll(p, s, w, Pow2(n) - 1, acc');
    var s2 := Walk(p, s1, Advance(t));
    s' := LoseAll(p, s2, w - {t}, acc', s.tail);
  }

  lemma {:induction false} Rounds(p: iset<State>, s: State, w: set<Tid>, n: nat) returns (s': State)
    requires Walkable(p) && s in p && AfterRounds(s, w, n)
    ensures s' in p && s'.thr.Keys == s.thr.Keys && s'.limit == s.limit && AfterRounds(s', {}, n + |w|)
    decreases w
  {
    if w == {} {
      return s;
    }
    var t :| t in w;
    var s1 := Round(p, s, w, t, n);
    assert n + |w| == (n + 1) + |w - {t}|;
    s' := Rounds(p, s1, w - {t}, n + 1);
  }

  lemma Race(p: iset<State>, s: State, w: set<Tid>, d: Data, free: set<Addr>) returns (s': State)
    requires Walkable(p) && s in p && Waiting(s, w, free) && s.tail == Tagged(0, 0) && Last(s) == 0
    ensures s' in p && s'.thr.Keys == s.thr.Keys && s'.limit == s.limit && AfterRounds(s', {}, |w|)
  {
    var s1 := PrepareAll(p, s, w, d, free);
    s' := Rounds(p, s1, w, 0);
  }

  /** For every number of threads some run of one Enqueue call each ends, after as many won
      swaps, with the largest tag TagBelow allows: sixteen racing threads use up all sixteen
      bits in sixteen swaps. */
  lemma TagIsReached(threads: nat, d: Data) returns (s: State)
    ensures Reachable(s) && s.limit == None && |s.thr| == threads == Last(s)
    ensures s.tail.Tagged? && s.tail.tag == Pow2(threads) - 1
  {
    var s0, w, free := NewQueue(None, threads, threads, d);
    s := Race(ReachableStates(), s0, w, d, free);
    assert |s.thr.Keys| == |s.thr|;
  }
}
