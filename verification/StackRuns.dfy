/** Runs of the CAS stack that show where its guarantees end: a Pop that reports an empty stack
    after a completed Push, and a key that comes back while a thread holds it. */
module StackRuns {
  import opened Bits
  import opened Counting
  import opened LockFreeStack
  import opened StackTheorems
  import opened StackWrap
  import opened Wrappers

  // The runs are built step by step inside any set of states that is closed under steps.

  ghost predicate Walkable(p: iset<State>) {
    forall s, step {:trigger Apply(s, step) in p} :: s in p && Enabled(s, step) ==> Apply(s, step) in p
  }

  lemma Walk(p: iset<State>, s: State, step: Step) returns (s': State)
    requires Walkable(p) && s in p && Enabled(s, step)
    ensures s' == Apply(s, step) && s' in p
  {
    s' := Apply(s, step);
  }

  lemma {:induction false} RunsSnoc(s: State, steps: seq<Step>, last: Step)
    requires Runs(s, steps) && Enabled(End(s, steps), last)
    ensures Runs(s, steps + [last]) && End(s, steps + [last]) == Apply(End(s, steps), last)
    decreases |steps|
  {
    if steps == [] {
      assert Runs(Apply(s, last), []);
      assert [last][1..] == [];
    } else {
      RunsSnoc(Apply(s, steps[0]), steps[1..], last);
      assert (steps + [last])[1..] == steps[1..] + [last];
    }
  }

  ghost predicate LeadsTo(s0: State, s: State) {
    exists steps: seq<Step> :: Runs(s0, steps) && End(s0, steps) == s
  }

  /** The states of all runs that start in a given state. */
  ghost function ReachableFrom(s0: State): iset<State> {
    iset s: State | LeadsTo(s0, s)
  }

  lemma ReachableWalkable(s0: State)
    ensures Walkable(ReachableFrom(s0)) && s0 in ReachableFrom(s0)
  {
    var p := ReachableFrom(s0);
    assert Runs(s0, []) && End(s0, []) == s0;
    forall s, step | s in p && Enabled(s, step) ensures Apply(s, step) in p {
      var steps: seq<Step> :| Runs(s0, steps) && End(s0, steps) == s;
      RunsSnoc(s0, steps, step);
    }
  }

  // ----- Whole calls -----

  /** The key that the next push draws. */
  function NextDraw(s: State): nat {
    Cut(s.bits, s.key + 1)
  }

  function Pushed(s: State, a: Addr, d: Data, key: nat): State {
    s.(mem := s.mem[a := Cell(d, s.top, InStack(|s.items|))], top := Tagged(a, key), size := s.size + 1,
       items := s.items + [Entry(Tagged(a, key), d)])
  }

  /** A push up to the point where it has its key. */
  lemma DrawKey(p: iset<State>, s: State, t: Tid, a: Addr, d: Data) returns (s': State)
    requires Walkable(p) && s in p && t in s.thr && s.thr[t] == Idle && a in s.mem && s.mem[a].owner == InPool
    ensures s' in p && s'.thr == s.thr[t := ReadTop(a, d, NextDraw(s))]
    ensures s' == s.(mem := s.mem[a := Cell(d, s.mem[a].next, HeldBy(t))], key := NextDraw(s), thr := s'.thr,
                     issued := s'.issued)
  {
    var s1 := Walk(p, s, StartPush(t, d));
    var s2 := Walk(p, s1, Allocate(t, a));
    var s3 := Walk(p, s2, Advance(t));
    s' := Walk(p, s3, Advance(t));
    assert s'.thr == s.thr[t := ReadTop(a, d, NextDraw(s))];
    assert s'.mem == s.mem[a := Cell(d, s.mem[a].next, HeldBy(t))];
  }

  /** The rest of it, with nobody else moving. */
  lemma Publish(p: iset<State>, s: State, t: Tid) returns (s': State)
    requires Walkable(p) && s in p && t in s.thr && s.thr[t].ReadTop? && s.thr[t].a in s.mem
    requires s.mem[s.thr[t].a].data == s.thr[t].d
    ensures s' in p && s' == Pushed(s, s.thr[t].a, s.thr[t].d, s.thr[t].key).(thr := s.thr[t := Idle], issued := s'.issued)
  {
    var s1 := Walk(p, s, Advance(t));
    var s2 := Walk(p, s1, Advance(t));
    var s3 := Walk(p, s2, Advance(t));
    s' := Walk(p, s3, Advance(t));
    assert s'.thr == s.thr[t := Idle];
    assert s'.mem == Pushed(s, s.thr[t].a, s.thr[t].d, s.thr[t].key).mem;
  }

  lemma SoloPush(p: iset<State>, s: State, t: Tid, a: Addr, d: Data) returns (s': State)
    requires Walkable(p) && s in p && t in s.thr && s.thr[t] == Idle && a in s.mem && s.mem[a].owner == InPool
    ensures s' in p && s' == Pushed(s, a, d, NextDraw(s)).(key := NextDraw(s), issued := s'.issued)
  {
    var s1 := DrawKey(p, s, t, a, d);
    s' := Publish(p, s1, t);
    assert s'.thr == s.thr;
    assert s'.mem == Pushed(s, a, d, NextDraw(s)).mem;
  }

  /** A pop up to its CAS. */
  lemma ReadTopNode(p: iset<State>, s: State, t: Tid) returns (s': State)
    requires Walkable(p) && s in p && t in s.thr && s.thr[t] == Idle && s.size >= 1
    requires s.top.Tagged? && s.top.adr in s.mem
    ensures s' in p
    ensures s' == s.(size := s.size - 1, thr := s.thr[t := Take(s.top, s.mem[s.top.adr].next, s.mem[s.top.adr].data)])
  {
    var s1 := Walk(p, s, StartPop(t));
    var s2 := Walk(p, s1, Advance(t));
    var s3 := Walk(p, s2, Advance(t));
    var s4 := Walk(p, s3, Advance(t));
    s' := Walk(p, s4, Advance(t));
    assert s'.thr == s.thr[t := Take(s.top, s.mem[s.top.adr].next, s.mem[s.top.adr].data)];
  }

  lemma SoloPopTop(p: iset<State>, s: State, t: Tid) returns (s': State)
    requires Walkable(p) && s in p && t in s.thr && s.thr[t] == Idle && s.size >= 1
    requires s.top.Tagged? && s.top.adr in s.mem && s.items != []
    ensures s' in p
    ensures s' == s.(mem := s.mem[s.top.adr := s.mem[s.top.adr].(owner := InPool)], top := s.mem[s.top.adr].next,
                     size := s.size - 1, items := s.items[..|s.items| - 1])
  {
    var s1 := ReadTopNode(p, s, t);
    var s2 := Walk(p, s1, Advance(t));
    s' := Walk(p, s2, Advance(t));
    assert s'.thr == s.thr;
    assert s'.mem == s.mem[s.top.adr := s.mem[s.top.adr].(owner := InPool)];
  }

  // ----- An empty verdict after a completed push -----

  /** An empty stack, three idle threads and free nodes. */
  predicate IsNew(s: State) {
    && s.top == Null && s.size == 0 && s.items == []
    && s.thr.Keys == {0, 1, 2} && (forall t :: t in s.thr ==> s.thr[t] == Idle)
    && s.mem.Keys == {0, 1, 2, 3} && (forall a :: a in s.mem ==> s.mem[a].owner == InPool)
  }

  /** A new stack, with keys of the given width. */
  function New(bits: Option<nat>, d: Data): (s: State)
    ensures IsNew(s) && s.bits == bits && s.key == 0
  {
    var c := Cell(d, Null, InPool);
    State(map[0 := c, 1 := c, 2 := c, 3 := c], Null, 0, 0, bits, map[0 := Idle, 1 := Idle, 2 := Idle], [], map[])
  }

  lemma PopPushPop(p: iset<State>, s0: State, d: Data) returns (s: State)
    requires Walkable(p) && s0 in p && IsNew(s0)
    ensures s in p && s.thr == map[0 := Undo, 1 := Idle, 2 := Reserve] && s.size == 0
    ensures |s.items| == 1 && s.items[0].data == d
  {
    var s1 := Walk(p, s0, StartPop(0));
    var s2 := Walk(p, s1, Advance(0));
    var s3 := SoloPush(p, s2, 1, 0, d);
    s := Walk(p, s3, StartPop(2));
  }

  /** A Pop can report an empty stack although a Push has completed: an earlier Pop, which found
      the stack empty, has not given its reservation back yet. */
  lemma EmptyAfterPush(d: Data) returns (s: State, t: Tid)
    ensures Reachable(s) && t in s.thr && s.thr[t] == Reserve && Move(s, t).thr[t] == Undo
    ensures Stacked(s) == [d] && forall u :: u in s.thr ==> !Claims(s.thr[u])
  {
    var s0 := New(None, d);
    ReachableWalkable(s0);
    s := PopPushPop(ReachableFrom(s0), s0, d);
    t := 2;
    assert LeadsTo(s0, s);
  }

  // ----- A key that comes back -----

  /** n pushes and pops of one node by one thread draw n keys and change nothing else. */
  lemma {:induction false} Spin(p: iset<State>, s: State, t: Tid, a: Addr, d: Data, b: nat, n: nat) returns (s': State)
    requires Walkable(p) && s in p && t in s.thr && s.thr[t] == Idle && a in s.mem && s.mem[a].owner == InPool
    requires s.bits == Some(b) && s.key < Pow2(b) && s.size >= 0
    ensures s' in p && a in s'.mem && s'.mem[a].owner == InPool && s'.key < Pow2(b)
    ensures s' == s.(mem := s.mem[a := s'.mem[a]], key := (s.key + n) % Pow2(b), issued := s'.issued)
    decreases n
  {
    if n == 0 {
      DivModUnique(0, s.key, Pow2(b));
      assert s.mem[a := s.mem[a]] == s.mem;
      return s;
    }
    var s1 := Spin(p, s, t, a, d, b, n - 1);
    var s2 := SoloPush(p, s1, t, a, d);
    s' := SoloPopTop(p, s2, t);
    CutNext(b, s.key + n - 1);
    assert s'.items == s.items;
    assert s'.mem == s.mem[a := s'.mem[a]];
  }

  /** Node 2 at the bottom, node 1 on top. */
  lemma TwoNodes(p: iset<State>, s0: State, d: Data) returns (s: State)
    requires Walkable(p) && s0 in p && IsNew(s0)
    ensures s in p && s.bits == s0.bits && s.size == 2 && s.thr == s0.thr && s.mem.Keys == s0.mem.Keys
    ensures s.mem[0].owner == InPool && s.mem[3].owner == InPool && s.key == Cut(s.bits, s.key)
    ensures s.top.Tagged? && s.top.adr == 1 && s.mem[1].next.Tagged? && s.mem[1].next.adr == 2
    ensures |s.items| == 2 && s.items[0].data == d
  {
    var s1 := SoloPush(p, s0, 1, 2, d);
    s := SoloPush(p, s1, 1, 1, d);
    CutTwice(s.bits, s1.key + 1);
  }

  lemma CutTwice(bits: Option<nat>, v: nat)
    ensures Cut(bits, Cut(bits, v)) == Cut(bits, v)
  {
    if bits.Some? {
      DivModUnique(0, v % Pow2(bits.value), Pow2(bits.value));
    }
  }

  /** Thread 0 has drawn the key k for node 0; then all other keys are drawn. */
  lemma KeysUsedUp(p: iset<State>, s0: State, b: nat, d: Data) returns (s: State, k: nat)
    requires Walkable(p) && s0 in p && IsNew(s0) && s0.bits == Some(b)
    ensures s in p && k < Pow2(b) && s.key == (k + Pow2(b) - 1) % Pow2(b)
    ensures s.bits == Some(b) && s.size == 2 && s.mem.Keys == {0, 1, 2, 3} && s.mem[0] == Cell(d, s.mem[0].next, HeldBy(0))
    ensures s.thr == s0.thr[0 := ReadTop(0, d, k)]
    ensures s.top.Tagged? && s.top.adr == 1 && s.mem[1].next.Tagged? && s.mem[1].next.adr == 2
    ensures |s.items| == 2 && s.items[0].data == d
  {
    var s1 := TwoNodes(p, s0, d);
    k := NextDraw(s1);
    var s2 := DrawKey(p, s1, 0, 0, d);
    s := Spin(p, s2, 1, 3, d, b, Pow2(b) - 1);
  }

  /** Thread 0 publishes node 0; thread 2 reads it and stops before its CAS. */
  lemma TopRead(p: iset<State>, s0: State, b: nat, d: Data) returns (s: State, k: nat)
    requires Walkable(p) && s0 in p && IsNew(s0) && s0.bits == Some(b)
    ensures s in p && k < Pow2(b) && s.key == (k + Pow2(b) - 1) % Pow2(b)
    ensures s.bits == Some(b) && s.size == 2 && s.mem.Keys == {0, 1, 2, 3} && s.top == Tagged(0, k)
    ensures 1 in s.thr && s.thr[1] == Idle && 2 in s.thr && s.thr[2] == Take(s.top, s.mem[0].next, d)
    ensures s.mem[0].next.Tagged? && s.mem[0].next.adr == 1 && s.mem[1].next.Tagged? && s.mem[1].next.adr == 2
    ensures |s.items| == 3 && s.items[0].data == d
  {
    var s1;
    s1, k := KeysUsedUp(p, s0, b, d);
    var s2 := Publish(p, s1, 0);
    s := ReadTopNode(p, s2, 2);
  }

  /** Thread 1 pops nodes 0 and 1 and pushes node 0 again, with the key it had. */
  lemma SameTopAgain(p: iset<State>, s0: State, b: nat, d: Data, d': Data) returns (s: State)
    requires Walkable(p) && s0 in p && IsNew(s0) && s0.bits == Some(b)
    ensures s in p && 2 in s.thr && s.thr[2].Take? && s.thr[2].seen == s.top && s.thr[2].d == d
    ensures s.top.Tagged? && s.top.adr in s.mem && Stacked(s) == [d, d']
    ensures var next := s.thr[2].next;
      next.Tagged? && next.adr != s.top.adr && next.adr in s.mem && s.mem[next.adr].owner == InPool
  {
    var s1, k := TopRead(p, s0, b, d);
    var s2 := SoloPopTop(p, s1, 1);
    var s3 := SoloPopTop(p, s2, 1);
    CutNext(b, k + Pow2(b) - 1);
    DivModUnique(1, k, Pow2(b));
    s := SoloPush(p, s3, 1, 0, d');
  }

  /** A run of the stack with keys of b bits in which a thread sleeps across a single push and
      still takes the wrong top: it returns data that are no longer on top, and puts a freed node
      there. The other 2^b keys were drawn while a push slept between its draw and its CAS. */
  lemma ReusedKeyBreaks(b: nat, d: Data, d': Data) returns (s: State, t: Tid)
    requires d != d'
    ensures InitWrapped(New(Some(b), d)) && s in ReachableFrom(New(Some(b), d))
    ensures Enabled(s, Advance(t)) && Observe(s, Advance(t)) == Popped(d) && Stacked(s) == [d, d']
    ensures var s' := Move(s, t); s'.top.Tagged? && s'.top.adr in s'.mem && s'.mem[s'.top.adr].owner == InPool
  {
    var s0 := New(Some(b), d);
    ReachableWalkable(s0);
    s := SameTopAgain(ReachableFrom(s0), s0, b, d, d');
    t := 2;
  }
}
