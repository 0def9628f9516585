/** Runs of the CAS queue that show where its guarantees end: a Dequeue that reports an empty queue
    after a completed Enqueue, and a tag that comes back while a thread holds it. */
module QueueRuns {
  import opened Bits
  import opened Counting
  import opened LockFreeQueue
  import opened QueueInvariant
  import opened QueueTheorems
  import opened QueueTightness
  import opened QueueWrap
  import opened Wrappers

  ghost predicate LeadsTo(s0: State, s: State) {
    exists steps: seq<Step> :: Runs(s0, steps) && End(s0, steps) == s
  }

  /** The states of all runs that start in a given state. */
  ghost function ReachableFrom(s0: State): iset<State> {
    iset s: State | LeadsTo(s0, s)
  }

  lemma ReachableFromWalkable(s0: State)
    ensures Walkable(ReachableFrom(s0)) && s0 in ReachableFrom(s0)
  {
    var p := ReachableFrom(s0);
    assert Runs(s0, []) && End(s0, []) == s0;
    forall s, step | s in p && Enabled(s, step) ensures Apply(s, step) in p {
      var steps: seq<Step> :| Runs(s0, steps) && End(s0, steps) == s;
      RunsSnoc(s0, steps, step);
    }
  }

  lemma FromNew(w: set<Tid>, free: set<Addr>, d: Data, s: State)
    requires 0 !in free && s in ReachableFrom(New(None, None, w, free, d))
    ensures Reachable(s)
  {
    var s0 := New(None, None, w, free, d);
    assert s0.(bits := None) == s0 && LeadsTo(s0, s);
  }

  // ----- Whole calls -----

  lemma FullEnqueue(p: iset<State>, s: State, t: Tid, a: Addr, d: Data) returns (s': State)
    requires Walkable(p) && s in p && t in s.thr && s.thr[t] == Idle && a in s.mem && s.mem[a].owner == InPool
    requires TailOpen(s) && s.limit == None
    ensures s' in p && s' == Appended(s, a, d) && TailOpen(s')
  {
    var s1 := Walk(p, s, StartEnqueue(t, d));
    s' := SoloEnqueue(p, s1, t, a);
    assert s'.thr == s.thr;
  }

  /** There is a node behind the head. */
  predicate HasSecond(s: State) {
    && s.head.Tagged? && s.head.adr in s.mem
    && var succ := s.mem[s.head.adr].next; succ.Tagged? && succ.adr in s.mem
  }

  /** A dequeuer before its CAS. */
  function Poised(s: State): Pc
    requires HasSecond(s)
  {
    var succ := s.mem[s.head.adr].next;
    SwingHead(s.head, succ, s.mem[succ.adr].data)
  }

  lemma PassTail(p: iset<State>, s: State, t: Tid) returns (s': State)
    requires Walkable(p) && s in p && t in s.thr && s.thr[t] == Idle && s.size >= 1 && TailOpen(s)
    ensures s' in p && s' == s.(size := s.size - 1, thr := s.thr[t := FindHead])
  {
    var s1 := Walk(p, s, StartDequeue(t));
    var s2 := Walk(p, s1, Advance(t));
    var s3 := Walk(p, s2, Advance(t));
    s' := Walk(p, s3, Advance(t));
    assert s'.thr == s.thr[t := FindHead];
  }

  lemma ReadHead(p: iset<State>, s: State, t: Tid) returns (s': State)
    requires Walkable(p) && s in p && t in s.thr && s.thr[t] == FindHead && HasSecond(s)
    ensures s' in p && s' == s.(thr := s.thr[t := Poised(s)])
  {
    var s1 := Walk(p, s, Advance(t));
    var s2 := Walk(p, s1, Advance(t));
    s' := Walk(p, s2, Advance(t));
    assert s'.thr == s.thr[t := Poised(s)];
  }

  /** A Dequeue up to its head CAS. */
  lemma ReadSecond(p: iset<State>, s: State, t: Tid) returns (s': State)
    requires Walkable(p) && s in p && t in s.thr && s.thr[t] == Idle && s.size >= 1 && TailOpen(s) && HasSecond(s)
    ensures s' in p && s' == s.(size := s.size - 1, thr := s.thr[t := Poised(s)])
  {
    var s1 := PassTail(p, s, t);
    s' := ReadHead(p, s1, t);
    assert s'.thr == s.thr[t := Poised(s)];
  }

  /** s with the node behind the head taken. */
  function Taken(s: State): State
    requires HasSecond(s)
  {
    var succ := s.mem[s.head.adr].next;
    s.(mem := s.mem[s.head.adr := s.mem[s.head.adr].(owner := InPool)], head := succ, size := s.size - 1,
       taken := s.taken + [s.mem[succ.adr].data])
  }

  lemma FullDequeue(p: iset<State>, s: State, t: Tid) returns (s': State)
    requires Walkable(p) && s in p && t in s.thr && s.thr[t] == Idle && s.size >= 1 && TailOpen(s) && HasSecond(s)
    ensures s' in p && s' == Taken(s)
  {
    var s1 := ReadSecond(p, s, t);
    var s2 := Walk(p, s1, Advance(t));
    s' := Walk(p, s2, Advance(t));
    assert s'.thr == s.thr;
    assert s'.mem == Taken(s).mem;
  }

  // ----- An empty verdict after a completed enqueue -----

  lemma FailedReserve(p: iset<State>, s: State, t: Tid) returns (s': State)
    requires Walkable(p) && s in p && t in s.thr && s.thr[t] == Idle && s.size == 0
    ensures s' in p && s' == s.(size := -1, thr := s.thr[t := Undo])
  {
    var s1 := Walk(p, s, StartDequeue(t));
    s' := Walk(p, s1, Advance(t));
    assert s'.thr == s.thr[t := Undo];
  }

  /** The next step of t finds that there is nothing to reserve. */
  predicate FindsEmpty(s: State, t: Tid) {
    t in s.thr && s.thr[t] == Reserve && Move(s, t).thr[t] == Undo
  }

  /** No queued node is reserved, or published but not counted yet. */
  predicate Unclaimed(s: State) {
    forall u :: u in s.thr ==> !Claims(s.thr[u])
  }

  lemma DequeueEnqueueDequeue(p: iset<State>, s0: State, d: Data) returns (s: State)
    requires Walkable(p) && s0 in p && s0 == New(None, None, {0, 1, 2}, {1}, d)
    ensures s in p && FindsEmpty(s, 2) && Unclaimed(s) && First(s) <= Last(s) && Queued(s) == [d]
  {
    var s1 := FailedReserve(p, s0, 0);
    var s2 := FullEnqueue(p, s1, 1, 1, d);
    s := Walk(p, s2, StartDequeue(2));
  }

  /** A Dequeue can report an empty queue although an Enqueue has completed: an earlier Dequeue,
      which found the queue empty, has not given its reservation back yet. */
  lemma EmptyAfterEnqueue(d: Data) returns (s: State, t: Tid)
    ensures Reachable(s) && FindsEmpty(s, t) && Unclaimed(s) && First(s) <= Last(s) && Queued(s) == [d]
  {
    var s0 := New(None, None, {0, 1, 2}, {1}, d);
    ReachableFromWalkable(s0);
    s := DequeueEnqueueDequeue(ReachableFrom(s0), s0, d);
    FromNew({0, 1, 2}, {1}, d, s);
    t := 2;
  }

  // ----- A tag that comes back -----

  /** The dummy x, one queued node y that a sleeping dequeuer has reserved, and a free node z; the
      head's tag is k cut to b bits. Thread 1 is idle. */
  ghost predicate Rolling(s: State, b: nat, x: Addr, y: Addr, z: Addr, k: nat, d: Data) {
    && s.bits == Some(b) && s.limit == None && s.size == 0 && 1 in s.thr && s.thr[1] == Idle
    && s.head == Tagged(x, k % Pow2(b)) && s.tail == Tagged(y, (k + 1) % Pow2(b)) && TailOpen(s)
    && x != y && y != z && z != x && x in s.mem && z in s.mem
    && s.mem[x].next == s.tail && s.mem[x].owner != InPool && s.mem[z].owner == InPool
    && s.mem[y].data == d && |s.chain| == |s.taken| + 2 && s.chain[|s.chain| - 1].data == d
  }

  /** Thread 1 enqueues z and dequeues y. */
  lemma Turn(p: iset<State>, s: State, b: nat, x: Addr, y: Addr, z: Addr, k: nat, d: Data, d': Data) returns (s': State)
    requires Walkable(p) && s in p && Rolling(s, b, x, y, z, k, d)
    ensures s' in p && Rolling(s', b, y, z, x, k + 1, d') && s'.thr == s.thr
  {
    CutNext(b, k + 1);
    OrZero((k + 2) % Pow2(b));
    var s1 := FullEnqueue(p, s, 1, z, d');
    assert s1.tail == Tagged(z, (k + 2) % Pow2(b));
    s' := FullDequeue(p, s1, 1);
  }

  /** 3n turns bring the three nodes back to their places. */
  lemma {:induction false} Spin(p: iset<State>, s: State, b: nat, k: nat, d: Data, d': Data, n: nat) returns (s': State)
    requires Walkable(p) && s in p && Rolling(s, b, 0, 1, 2, k, d) && n >= 1
    ensures s' in p && Rolling(s', b, 0, 1, 2, k + 3 * n, d') && s'.thr == s.thr
    decreases n
  {
    var s1 := Turn(p, s, b, 0, 1, 2, k, d, d');
    var s2 := Turn(p, s1, b, 1, 2, 0, k + 1, d', d');
    s' := Turn(p, s2, b, 2, 0, 1, k + 2, d', d');
    if n > 1 {
      s' := Spin(p, s', b, k + 3, d', d', n - 1);
    }
  }

  /** Thread 1 enqueues node 1, which thread 0 has read when it falls asleep before its CAS. */
  lemma FallAsleep(p: iset<State>, s0: State, b: nat, d: Data) returns (s: State)
    requires Walkable(p) && s0 in p && s0 == New(None, Some(b), {0, 1}, {1, 2}, d)
    ensures s in p && Rolling(s, b, 0, 1, 2, 0, d)
    ensures 0 in s.thr && s.thr[0] == SwingHead(Tagged(0, 0), Tagged(1, 1 % Pow2(b)), d)
  {
    DivModUnique(0, 0, Pow2(b));
    OrZero(1 % Pow2(b));
    var s1 := FullEnqueue(p, s0, 1, 1, d);
    s := ReadSecond(p, s1, 0);
  }

  /** While it sleeps, thread 1 brings back the head it has read. */
  lemma SameHeadAgain(p: iset<State>, s0: State, b: nat, d: Data, d': Data) returns (s: State)
    requires Walkable(p) && s0 in p && s0 == New(None, Some(b), {0, 1}, {1, 2}, d)
    ensures s in p && 0 in s.thr && s.thr[0].SwingHead? && s.thr[0].seen == s.head && s.thr[0].d == d
    ensures s.head.Tagged? && s.head.adr in s.mem && First(s) <= Last(s) && Queued(s) == [d']
  {
    var s1 := FallAsleep(p, s0, b, d);
    s := Spin(p, s1, b, 0, d, d', Pow2(b));
    DivModUnique(3, 0, Pow2(b));
  }

  /** A run of the queue with tags of b bits in which a Dequeue that slept wins its swap and returns
      data that are not in the queue any more. */
  lemma ReusedTagBreaks(b: nat, d: Data, d': Data) returns (s: State, t: Tid)
    requires d != d'
    ensures var s0 := New(None, Some(b), {0, 1}, {1, 2}, d); InitWrapped(s0) && s in ReachableFrom(s0)
    ensures Enabled(s, Advance(t)) && Observe(s, Advance(t)) == Dequeued(d)
    ensures First(s) <= Last(s) && Queued(s) == [d']
  {
    var s0 := New(None, Some(b), {0, 1}, {1, 2}, d);
    ReachableFromWalkable(s0);
    s := SameHeadAgain(ReachableFrom(s0), s0, b, d, d');
    t := 0;
  }
}
