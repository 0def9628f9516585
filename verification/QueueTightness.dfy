/** The bound on MAXLFQueue is exact: a run reaches it for every limit and thread count. */
module QueueTightness {
  import Bits
  import opened Counting
  import opened LockFreeQueue
  import opened QueueInvariant
  import opened QueueTheorems
  import opened Wrappers

  // The runs below are built step by step inside any set of states that is closed under steps.

  ghost predicate Walkable(p: iset<State>) {
    forall s, step {:trigger Apply(s, step) in p} :: s in p && Enabled(s, step) ==> Apply(s, step) in p
  }

  ghost function ReachableStates(): iset<State> {
    iset s: State | Reachable(s)
  }

  lemma ReachableWalkable()
    ensures Walkable(ReachableStates())
  {
    var p := ReachableStates();
    forall s, step | s in p && Enabled(s, step) ensures Apply(s, step) in p {
      ReachableStep(s, step);
    }
  }

  lemma Walk(p: iset<State>, s: State, step: Step) returns (s': State)
    requires Walkable(p) && s in p && Enabled(s, step)
    ensures s' == Apply(s, step) && s' in p
  {
    s' := Apply(s, step);
  }

  /** Pool nodes other than a stay pool nodes. */
  ghost predicate Untouched(mem: map<Addr, Cell>, mem': map<Addr, Cell>, a: Addr) {
    forall b :: b in mem && b != a && mem[b].owner == InPool ==> b in mem' && mem'[b].owner == InPool
  }

  /** An enqueuer that is given a node and runs alone up to its first read of the tail. */
  lemma SoloPrepare(p: iset<State>, s: State, t: Tid, a: Addr) returns (s': State)
    requires Walkable(p) && s in p && t in s.thr && s.thr[t].NeedNode? && a in s.mem && s.mem[a].owner == InPool
    ensures s' in p && s'.thr == s.thr[t := ReadTail(a, s.thr[t].d, 0)] && a in s'.mem
    ensures s' == s.(thr := s'.thr, mem := s.mem[a := Cell(s.thr[t].d, Null, HeldBy(t))]) && Untouched(s.mem, s'.mem, a)
  {
    var s1 := Walk(p, s, Allocate(t, a));
    var s2 := Walk(p, s1, Advance(t));
    s' := Walk(p, s2, Advance(t));
    assert s'.thr == s.thr[t := ReadTail(a, s.thr[t].d, 0)];
    assert s'.mem == s.mem[a := Cell(s.thr[t].d, Null, HeldBy(t))];
  }

  /** The tail is a node without a successor, and nobody is about to link one. */
  ghost predicate TailOpen(s: State) {
    && s.tail.Tagged? && s.tail.adr in s.mem && s.mem[s.tail.adr].next == Null
    && s.mem[s.tail.adr].owner != InPool && s.chain != [] && s.chain[Last(s)].linker == None
  }

  /** The tag that an enqueuer publishes if its first swap wins. */
  function FirstTag(s: State): nat {
    Bits.Or(0, NextTag(s))
  }

  /** s with the node a linked behind the tail. */
  ghost function Appended(s: State, a: Addr, d: Data): State
    requires TailOpen(s)
  {
    var p := Tagged(a, FirstTag(s));
    s.(mem := s.mem[a := Cell(d, Null, InChain(|s.chain|))][s.tail.adr := s.mem[s.tail.adr].(next := p)],
       tail := p, size := s.size + 1, chain := s.chain + [Entry(p, d, None)])
  }

  /** An enqueuer that reads the tail and swaps it before anybody else moves. */
  lemma SoloSwap(p: iset<State>, s: State, t: Tid) returns (s': State)
    requires Walkable(p) && s in p && t in s.thr && s.thr[t].ReadTail? && s.thr[t].acc == 0
    requires s.thr[t].a in s.mem && TailOpen(s) && s.thr[t].a != s.tail.adr
    ensures var a, d, n := s.thr[t].a, s.thr[t].d, |s.chain|;
      && s' in p && s'.chain == s.chain[n - 1 := s.chain[n - 1].(linker := Some(t))] + [Entry(s'.tail, d, None)]
      && s' == s.(mem := s.mem[a := s.mem[a].(owner := InChain(n))], tail := Tagged(a, FirstTag(s)), chain := s'.chain,
                  thr := s.thr[t := LinkPrev(a, d, FirstTag(s), s.tail, n - 1)])
  {
    var s1 := Walk(p, s, Advance(t));
    s' := Walk(p, s1, Advance(t));
    assert s'.thr == s.thr[t := s'.thr[t]];
  }

  /** Then it links its node and counts it. */
  lemma SoloLink(p: iset<State>, s: State, t: Tid) returns (s': State)
    requires Walkable(p) && s in p && t in s.thr && s.thr[t].LinkPrev? && s.thr[t].slot < |s.chain|
    requires var seen := s.thr[t].seen; seen.Tagged? && seen.adr in s.mem && s.mem[seen.adr].next == Null
    ensures var pc := s.thr[t];
      && s' in p
      && s' == s.(mem := s.mem[pc.seen.adr := s.mem[pc.seen.adr].(next := Tagged(pc.a, pc.acc))], thr := s.thr[t := Idle],
                  size := s.size + 1, chain := s.chain[pc.slot := s.chain[pc.slot].(linker := None)])
  {
    var s1 := Walk(p, s, Advance(t));
    s' := Walk(p, s1, Advance(t));
    assert s'.thr == s.thr[t := Idle];
  }

  /** An enqueuer that is given a node and runs alone finishes. */
  lemma SoloEnqueue(p: iset<State>, s: State, t: Tid, a: Addr) returns (s': State)
    requires Walkable(p) && s in p && t in s.thr && s.thr[t].NeedNode? && a in s.mem && s.mem[a].owner == InPool
    requires TailOpen(s)
    ensures s' in p && s' == Appended(s, a, s.thr[t].d).(thr := s.thr[t := Idle])
    ensures TailOpen(s') && Untouched(s.mem, s'.mem, a)
  {
    var s1 := SoloPrepare(p, s, t, a);
    var s2 := SoloSwap(p, s1, t);
    s' := SoloLink(p, s2, t);
    assert s'.thr == s.thr[t := Idle];
    assert s'.chain == Appended(s, a, s.thr[t].d).chain;
    assert s'.mem == Appended(s, a, s.thr[t].d).mem;
  }

  // ----- The run that reaches the bound -----

  ghost predicate AllIdle(s: State) {
    forall t :: t in s.thr ==> s.thr[t] == Idle
  }

  /** The nodes of free are all in the pool. */
  ghost predicate Stocked(s: State, free: set<Addr>) {
    forall a :: a in free ==> a in s.mem && s.mem[a].owner == InPool
  }

  /** One thread that passes the size test. */
  lemma PassTest(p: iset<State>, s: State, t: Tid, d: Data) returns (s': State)
    requires Walkable(p) && s in p && t in s.thr && s.thr[t] == Idle && s.limit.Some? && s.size < s.limit.value
    ensures s' in p && s'.thr == s.thr[t := NeedNode(d)]
    ensures s' == s.(thr := s'.thr)
  {
    var s1 := Walk(p, s, StartEnqueue(t, d));
    s' := Walk(p, s1, Advance(t));
    assert s'.thr == s.thr[t := NeedNode(d)];
  }

  /** One thread fills the queue up to one below the limit. */
  lemma {:induction false} Fill(p: iset<State>, s: State, t: Tid, d: Data, free: set<Addr>, n: nat)
    returns (s': State, left: set<Addr>)
    requires Walkable(p) && s in p && t in s.thr && AllIdle(s) && s.limit.Some? && s.size + n <= s.limit.value
    requires TailOpen(s) && Stocked(s, free) && |free| >= n
    ensures s' in p && s'.thr == s.thr && s'.limit == s.limit && s'.size == s.size + n
    ensures TailOpen(s') && Stocked(s', left) && |left| == |free| - n
    decreases n
  {
    if n == 0 {
      return s, free;
    }
    var a :| a in free;
    var s1 := PassTest(p, s, t, d);
    var s2 := SoloEnqueue(p, s1, t, a);
    assert s2.thr == s.thr;
    s', left := Fill(p, s2, t, d, free - {a}, n - 1);
  }

  /** Every thread of w passes the size test before any of them is counted. */
  lemma {:induction false} PassAll(p: iset<State>, s: State, w: set<Tid>, d: Data) returns (s': State)
    requires Walkable(p) && s in p && w <= s.thr.Keys && s.limit.Some? && s.size < s.limit.value
    requires forall t :: t in w ==> s.thr[t] == Idle
    ensures s' in p && s' == s.(thr := s'.thr) && s'.thr.Keys == s.thr.Keys
    ensures forall t :: t in s.thr ==> s'.thr[t] == if t in w then NeedNode(d) else s.thr[t]
    decreases w
  {
    if w == {} {
      return s;
    }
    var t :| t in w;
    var s1 := PassTest(p, s, t, d);
    s' := PassAll(p, s1, w - {t}, d);
  }

  /** Then all of them finish. */
  lemma {:induction false} FinishAll(p: iset<State>, s: State, w: set<Tid>, free: set<Addr>) returns (s': State)
    requires Walkable(p) && s in p && w <= s.thr.Keys
      && forall t :: t in s.thr ==> if t in w then s.thr[t].NeedNode? else s.thr[t] == Idle
    requires TailOpen(s) && Stocked(s, free) && |free| >= |w|
    ensures s' in p && s'.size == s.size + |w| && s'.limit == s.limit
    ensures s'.thr.Keys == s.thr.Keys && AllIdle(s')
    decreases w
  {
    if w == {} {
      return s;
    }
    var t :| t in w;
    var a :| a in free;
    var s1 := SoloEnqueue(p, s, t, a);
    s' := FinishAll(p, s1, w - {t}, free - {a});
  }

  /** A new queue with the dummy node 0, idle threads and free nodes. */
  ghost function New(limit: Option<int>, bits: Option<nat>, w: set<Tid>, free: set<Addr>, d: Data): (s: State)
    requires 0 !in free
    ensures s.thr.Keys == w && s.mem.Keys == {0} + free && AllIdle(s) && TailOpen(s) && Stocked(s, free)
    ensures s.limit == limit && s.bits == bits && s.tail == Tagged(0, 0) == s.head && Last(s) == 0 == s.size
    ensures Init(s.(bits := None)) && forall a :: a in s.mem ==> s.mem[a].next == Null
  {
    State(map a | a in {0} + free :: Cell(d, Null, if a == 0 then InChain(0) else InPool),
          Tagged(0, 0), Tagged(0, 0), 0, limit, bits, map t | t in w :: Idle, [Entry(Tagged(0, 0), d, None)], [])
  }

  lemma NewQueue(limit: Option<int>, threads: nat, nodes: nat, d: Data) returns (s: State, w: set<Tid>, free: set<Addr>)
    ensures Walkable(ReachableStates()) && s in ReachableStates()
    ensures s.limit == limit && s.bits == None && s.tail == Tagged(0, 0) && Last(s) == 0 == s.size
    ensures s.thr.Keys == w == Range(0, threads) && |free| == nodes && AllIdle(s) && TailOpen(s) && Stocked(s, free)
  {
    ReachableWalkable();
    w, free := Range(0, threads), Range(1, nodes);
    s := New(limit, None, w, free, d);
    assert s.(bits := None) == s;
    assert Runs(s, []) && End(s, []) == s;
  }

  /** For every limit and every number of threads some run leaves, with no call running,
      exactly limit + threads - 1 nodes in the queue: the size test alone does not enforce
      `_maxSize`, and BoundedLength cannot be improved. */
  lemma BoundIsReached(limit: int, threads: nat, d: Data) returns (s: State)
    requires limit >= 1 && threads >= 1
    ensures Reachable(s) && s.limit == Some(limit) && |s.thr| == threads && AllIdle(s)
    ensures First(s) <= Last(s) && |Queued(s)| == limit + threads - 1 == Bound(s)
  {
    var s0, w, free := NewQueue(Some(limit), threads, limit + threads, d);
    var p := ReachableStates();
    var s1, left := Fill(p, s0, 0, d, free, limit - 1);
    var s2 := PassAll(p, s1, w, d);
    s := FinishAll(p, s2, w, left);
    assert |s.thr.Keys| == |s.thr|;
    Quiescent(s);
  }

  ghost function Range(lo: nat, n: nat): (r: set<nat>)
    ensures |r| == n && forall x :: x in r <==> lo <= x < lo + n
  {
    if n == 0 then {} else Range(lo, n - 1) + {lo + n - 1}
  }
}
