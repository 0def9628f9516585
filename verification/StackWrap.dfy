/** The CAS stack with keys of a fixed width, as the code has them. A run of it is a run of the
    stack with natural keys, value by value, as long as no push publishes a word that a thread
    still holds from a read of the top. */
module StackWrap {
  import opened Bits
  import opened Counting
  import opened LockFreeStack
  import opened StackTheorems
  import opened Wrappers

  // ----- Cutting keys to b bits -----

  function CutPtr(b: nat, p: Ptr): Ptr {
    if p.Tagged? then Tagged(p.adr, p.key % Pow2(b)) else Null
  }

  function CutPc(b: nat, pc: Pc): Pc {
    match pc
    case ReadTop(a, d, key) => ReadTop(a, d, key % Pow2(b))
    case WriteNext(a, d, key, seen) => WriteNext(a, d, key % Pow2(b), CutPtr(b, seen))
    case SwingTop(a, d, key, seen) => SwingTop(a, d, key % Pow2(b), CutPtr(b, seen))
    case ReadNext(seen) => ReadNext(CutPtr(b, seen))
    case ReadData(seen, next) => ReadData(CutPtr(b, seen), CutPtr(b, next))
    case Take(seen, next, d) => Take(CutPtr(b, seen), CutPtr(b, next), d)
    case _ => pc
  }

  function CutMem(b: nat, mem: map<Addr, Cell>): map<Addr, Cell> {
    map a | a in mem :: mem[a].(next := CutPtr(b, mem[a].next))
  }

  function CutThr(b: nat, thr: map<Tid, Pc>): map<Tid, Pc> {
    map t | t in thr :: CutPc(b, thr[t])
  }

  function CutItems(b: nat, items: seq<Entry>): seq<Entry> {
    seq(|items|, i requires 0 <= i < |items| => Entry(CutPtr(b, items[i].ptr), items[i].data))
  }

  /** m is s with all keys cut to b bits; `issued`, which no step reads, may differ. */
  ghost predicate Tracks(b: nat, s: State, m: State) {
    && m.bits == Some(b) && s.bits == None
    && m.mem == CutMem(b, s.mem) && m.top == CutPtr(b, s.top) && m.size == s.size
    && m.key == s.key % Pow2(b) && m.thr == CutThr(b, s.thr) && m.items == CutItems(b, s.items)
  }

  // ----- Lockstep -----

  lemma PutTracks(b: nat, s: State, m: State, a: Addr, c: Cell)
    requires Tracks(b, s, m)
    ensures Tracks(b, Put(s, a, c), Put(m, a, c.(next := CutPtr(b, c.next))))
  {
    assert CutMem(b, s.mem[a := c]) == CutMem(b, s.mem)[a := c.(next := CutPtr(b, c.next))];
  }

  lemma GotoTracks(b: nat, s: State, m: State, t: Tid, pc: Pc)
    requires Tracks(b, s, m)
    ensures Tracks(b, Goto(s, t, pc), Goto(m, t, CutPc(b, pc)))
  {
    assert CutThr(b, s.thr[t := pc]) == CutThr(b, s.thr)[t := CutPc(b, pc)];
  }

  /** What a thread has read from the top and not compared yet. */
  function SeenTop(pc: Pc): Option<Ptr> {
    match pc
    case WriteNext(_, _, _, seen) => Some(seen)
    case SwingTop(_, _, _, seen) => Some(seen)
    case ReadNext(seen) => Some(seen)
    case ReadData(seen, _) => Some(seen)
    case Take(seen, _, _) => Some(seen)
    case _ => None
  }

  /** The CAS of thread t, if that is its next step, decides the same on words and on values. */
  ghost predicate CasAgrees(b: nat, s: State, t: Tid) {
    t in s.thr && (s.thr[t].SwingTop? || s.thr[t].Take?) && CutPtr(b, s.top) == CutPtr(b, s.thr[t].seen) ==>
      s.top == s.thr[t].seen
  }

  lemma GroundedTracks(b: nat, s: State, m: State, t: Tid)
    requires Tracks(b, s, m) && t in s.thr
    ensures m.thr[t] == CutPc(b, s.thr[t]) && (Grounded(m, m.thr[t]) <==> Grounded(s, s.thr[t]))
  {
  }

  ghost predicate SameMove(b: nat, s: State, m: State, t: Tid)
    requires Enabled(m, Advance(t))
  {
    Enabled(s, Advance(t)) && Tracks(b, Move(s, t), Move(m, t)) && Observe(m, Advance(t)) == Observe(s, Advance(t))
  }

  lemma PushTracks(b: nat, s: State, m: State, t: Tid)
    requires Tracks(b, s, m) && Enabled(m, Advance(t)) && s.thr[t].SwingTop? && CasAgrees(b, s, t)
    ensures SameMove(b, s, m, t)
  {
    GroundedTracks(b, s, m, t);
    var a := s.thr[t].a;
    PutTracks(b, s, m, a, s.mem[a].(owner := InStack(|s.items|)));
    GotoTracks(b, s, m, t, Move(s, t).thr[t]);
  }

  lemma PopTracks(b: nat, s: State, m: State, t: Tid)
    requires Tracks(b, s, m) && Enabled(m, Advance(t)) && s.thr[t].Take? && CasAgrees(b, s, t)
    ensures SameMove(b, s, m, t)
  {
    GroundedTracks(b, s, m, t);
    var seen := s.thr[t].seen;
    PutTracks(b, s, m, seen.adr, s.mem[seen.adr].(owner := HeldBy(t)));
    GotoTracks(b, s, m, t, Move(s, t).thr[t]);
  }

  lemma KeyTracks(b: nat, s: State, m: State, t: Tid)
    requires Tracks(b, s, m) && Enabled(m, Advance(t)) && s.thr[t].TakeKey?
    ensures SameMove(b, s, m, t)
  {
    GroundedTracks(b, s, m, t);
    CutNext(b, s.key);
    GotoTracks(b, s, m, t, Move(s, t).thr[t]);
  }

  lemma WriteTracks(b: nat, s: State, m: State, t: Tid)
    requires Tracks(b, s, m) && Enabled(m, Advance(t))
    requires s.thr[t].WriteData? || s.thr[t].WriteNext? || s.thr[t].Release?
    ensures SameMove(b, s, m, t)
  {
    GroundedTracks(b, s, m, t);
    var a := s.thr[t].a;
    PutTracks(b, s, m, a, Move(s, t).mem[a]);
    GotoTracks(b, s, m, t, Move(s, t).thr[t]);
  }

  lemma TopTracks(b: nat, s: State, m: State, t: Tid)
    requires Tracks(b, s, m) && Enabled(m, Advance(t)) && (s.thr[t].ReadTop? || s.thr[t].LoadTop?)
    ensures SameMove(b, s, m, t)
  {
    GroundedTracks(b, s, m, t);
    GotoTracks(b, s, m, t, Move(s, t).thr[t]);
  }

  lemma ReadTracks(b: nat, s: State, m: State, t: Tid)
    requires Tracks(b, s, m) && Enabled(m, Advance(t)) && (s.thr[t].ReadNext? || s.thr[t].ReadData?)
    ensures SameMove(b, s, m, t)
  {
    GroundedTracks(b, s, m, t);
    GotoTracks(b, s, m, t, Move(s, t).thr[t]);
  }

  lemma SizeTracks(b: nat, s: State, m: State, t: Tid)
    requires Tracks(b, s, m) && Enabled(m, Advance(t)) && (s.thr[t].CountUp? || s.thr[t].Reserve? || s.thr[t].Undo?)
    ensures SameMove(b, s, m, t)
  {
    GroundedTracks(b, s, m, t);
    GotoTracks(b, s, m, t, Move(s, t).thr[t]);
  }

  lemma MoveTracks(b: nat, s: State, m: State, t: Tid)
    requires Tracks(b, s, m) && Enabled(m, Advance(t)) && CasAgrees(b, s, t)
    ensures SameMove(b, s, m, t)
  {
    match s.thr[t] {
      case SwingTop(_, _, _, _) => PushTracks(b, s, m, t);
      case Take(_, _, _) => PopTracks(b, s, m, t);
      case TakeKey(_, _) => KeyTracks(b, s, m, t);
      case WriteData(_, _) => WriteTracks(b, s, m, t);
      case WriteNext(_, _, _, _) => WriteTracks(b, s, m, t);
      case Release(_, _) => WriteTracks(b, s, m, t);
      case CountUp => SizeTracks(b, s, m, t);
      case Reserve => SizeTracks(b, s, m, t);
      case Undo => SizeTracks(b, s, m, t);
      case ReadTop(_, _, _) => TopTracks(b, s, m, t);
      case LoadTop => TopTracks(b, s, m, t);
      case _ => ReadTracks(b, s, m, t);
    }
  }

  lemma StepTracks(b: nat, s: State, m: State, step: Step)
    requires Tracks(b, s, m) && Enabled(m, step)
    requires step.Advance? ==> CasAgrees(b, s, step.t)
    ensures Enabled(s, step) && Tracks(b, Apply(s, step), Apply(m, step))
    ensures Observe(m, step) == Observe(s, step)
  {
    match step {
      case Spawn(t) => GotoTracks(b, s, m, t, Idle);
      case StartPush(t, d) => GotoTracks(b, s, m, t, NeedNode(d));
      case StartPop(t) => GotoTracks(b, s, m, t, Reserve);
      case Allocate(t, a) =>
        PutTracks(b, s, m, a, s.mem[a].(owner := HeldBy(t)));
        GotoTracks(b, s, m, t, WriteData(a, s.thr[t].d));
      case Advance(t) => MoveTracks(b, s, m, t);
      case Carve(a, data, next) => PutTracks(b, s, m, a, Cell(data, next, InPool));
      case Scribble(a, data, next) => PutTracks(b, s, m, a, Cell(data, next, InPool));
    }
  }

  // ----- When every CAS agrees -----

  /** No thread holds a word that is now the word of another pointer in the stack. */
  ghost predicate Held(b: nat, s: State) {
    forall t, i {:trigger s.thr[t], s.items[i]} :: t in s.thr && 0 <= i < |s.items| ==>
      HeldAt(b, s.thr[t], s.items[i].ptr)
  }

  ghost predicate HeldAt(b: nat, pc: Pc, p: Ptr) {
    SeenTop(pc).Some? && CutPtr(b, SeenTop(pc).value) == CutPtr(b, p) ==> SeenTop(pc).value == p
  }

  lemma HeldAgrees(b: nat, s: State, t: Tid)
    requires Inv(s) && Held(b, s)
    ensures CasAgrees(b, s, t)
  {
    if t in s.thr && s.items != [] {
      assert HeldAt(b, s.thr[t], s.items[|s.items| - 1].ptr);
    }
  }

  /** The step publishes no word that a thread still holds. */
  ghost predicate Fresh(m: State, step: Step)
    requires Enabled(m, step)
  {
    var m' := Apply(m, step);
    Observe(m, step).Pushed? ==> forall t :: t in m'.thr ==> SeenTop(m'.thr[t]) != Some(m'.top)
  }

  /** A thread that reads the top reads the word of one pointer in the stack only. */
  lemma TopIsAlone(b: nat, s: State, i: nat)
    requires Inv(s) && i < |s.items| && CutPtr(b, s.top) == CutPtr(b, s.items[i].ptr)
    ensures s.top == s.items[i].ptr
  {
    assert LiveAt(s, i) && LiveAt(s, |s.items| - 1);
  }

  /** What one thread holds after a step: what it held, or nothing, or the top. */
  ghost predicate SeenNext(s: State, s': State, t: Tid)
    requires t in s'.thr
  {
    var seen := SeenTop(s'.thr[t]);
    || seen == None
    || (t in s.thr && seen == SeenTop(s.thr[t]))
    || (seen == Some(s.top) && s'.items == s.items)
  }

  lemma MoveSeen(s: State, u: Tid, t: Tid)
    requires Enabled(s, Advance(u)) && t in s.thr
    ensures t in Move(s, u).thr && SeenNext(s, Move(s, u), t)
  {
    if u != t {
      assert Move(s, u).thr[t] == s.thr[t];
    }
  }

  lemma SeenMoves(s: State, step: Step, t: Tid)
    requires Enabled(s, step) && t in Apply(s, step).thr
    ensures SeenNext(s, Apply(s, step), t)
  {
    if step.Advance? {
      MoveSeen(s, step.t, t);
    }
  }

  /** What a step does to the stack: a push adds the new top, and nothing else adds anything. */
  ghost predicate ItemsNext(s: State, s': State, e: Event) {
    || s'.items <= s.items
    || (e.Pushed? && |s'.items| == |s.items| + 1 && s'.items[..|s.items|] == s.items && s'.items[|s.items|].ptr == s'.top)
  }

  lemma MoveItems(s: State, t: Tid)
    requires Enabled(s, Advance(t))
    ensures ItemsNext(s, Move(s, t), Observe(s, Advance(t)))
  {
  }

  lemma ItemsMove(s: State, step: Step)
    requires Enabled(s, step)
    ensures ItemsNext(s, Apply(s, step), Observe(s, step))
  {
    if step.Advance? {
      MoveItems(s, step.t);
    }
  }

  lemma HeldOne(b: nat, s: State, s': State, t: Tid, i: nat)
    requires Inv(s) && Held(b, s) && t in s'.thr && SeenNext(s, s', t) && i < |s.items|
    ensures HeldAt(b, s'.thr[t], s.items[i].ptr)
  {
    if t in s.thr {
      assert HeldAt(b, s.thr[t], s.items[i].ptr);
    }
    if CutPtr(b, s.top) == CutPtr(b, s.items[i].ptr) {
      TopIsAlone(b, s, i);
    }
  }

  lemma HeldNew(b: nat, s': State, m': State, t: Tid)
    requires Tracks(b, s', m') && t in s'.thr && SeenTop(m'.thr[t]) != Some(m'.top)
    ensures HeldAt(b, s'.thr[t], s'.top)
  {
  }

  lemma HeldStep(b: nat, s: State, m: State, step: Step)
    requires Inv(s) && Held(b, s) && Enabled(m, step) && Fresh(m, step)
    requires Enabled(s, step) && Tracks(b, Apply(s, step), Apply(m, step)) && Observe(m, step) == Observe(s, step)
    ensures Held(b, Apply(s, step))
  {
    var s', m' := Apply(s, step), Apply(m, step);
    ItemsMove(s, step);
    forall t, i | t in s'.thr && 0 <= i < |s'.items| ensures HeldAt(b, s'.thr[t], s'.items[i].ptr) {
      if i < |s.items| {
        SeenMoves(s, step, t);
        HeldOne(b, s, s', t, i);
        assert s'.items[i] == s.items[i];
      } else {
        HeldNew(b, s', m', t);
      }
    }
  }

  // ----- Runs -----

  ghost predicate FreshRun(m: State, steps: seq<Step>)
    requires Runs(m, steps)
    decreases |steps|
  {
    steps == [] || (Fresh(m, steps[0]) && FreshRun(Apply(m, steps[0]), steps[1..]))
  }

  lemma {:induction false} Shadow(b: nat, s: State, m: State, steps: seq<Step>)
    requires Inv(s) && Tracks(b, s, m) && Held(b, s) && Runs(m, steps) && FreshRun(m, steps)
    ensures Runs(s, steps) && Tracks(b, End(s, steps), End(m, steps)) && Events(m, steps) == Events(s, steps)
    decreases |steps|
  {
    if steps != [] {
      if steps[0].Advance? {
        HeldAgrees(b, s, steps[0].t);
      }
      StepTracks(b, s, m, steps[0]);
      HeldStep(b, s, m, steps[0]);
      StepInv(s, steps[0]);
      Shadow(b, Apply(s, steps[0]), Apply(m, steps[0]), steps[1..]);
    }
  }

  /** A new stack with keys of a fixed width. */
  ghost predicate InitWrapped(m: State) {
    m.bits.Some? && Init(m.(bits := None)) && forall a :: a in m.mem ==> Fits(m, m.mem[a].next)
  }

  lemma InitTracks(m0: State)
    requires InitWrapped(m0)
    ensures var s0 := m0.(bits := None); Inv(s0) && Tracks(m0.bits.value, s0, m0) && Held(m0.bits.value, s0)
  {
    assert CutMem(m0.bits.value, m0.mem) == m0.mem;
    assert CutThr(m0.bits.value, m0.thr) == m0.thr;
    DivModUnique(0, 0, Pow2(m0.bits.value));
    InitInv(m0.(bits := None));
  }

  /** A run in which no push publishes a word that a thread still holds is, step by step and up to
      the width of the keys, a run of the stack with natural keys. */
  lemma WrappedIsNatural(m0: State, steps: seq<Step>)
    requires InitWrapped(m0) && Runs(m0, steps) && FreshRun(m0, steps)
    ensures var s0 := m0.(bits := None);
      && Init(s0) && Runs(s0, steps) && Reachable(End(s0, steps))
      && Tracks(m0.bits.value, End(s0, steps), End(m0, steps)) && Events(m0, steps) == Events(s0, steps)
  {
    InitTracks(m0);
    Shadow(m0.bits.value, m0.(bits := None), m0, steps);
  }

  /** So such a run is last in, first out, with nothing lost and nothing twice. */
  lemma LifoWrapped(m0: State, steps: seq<Step>)
    requires InitWrapped(m0) && Runs(m0, steps) && FreshRun(m0, steps)
    ensures Replay([], Events(m0, steps)) == Some(Stacked(End(m0, steps)))
  {
    WrappedIsNatural(m0, steps);
    LifoFromEmpty(m0.(bits := None), steps);
    assert Stacked(End(m0, steps)) == Stacked(End(m0.(bits := None), steps));
  }

  // ----- Runs that are too short for a key to come back -----

  predicate Draws(s: State, step: Step) {
    step.Advance? && step.t in s.thr && s.thr[step.t].TakeKey?
  }

  /** The number of keys drawn in a run. */
  ghost function DrawCount(s: State, steps: seq<Step>): nat
    requires Runs(s, steps)
    decreases |steps|
  {
    if steps == [] then 0 else Bit(Draws(s, steps[0])) + DrawCount(Apply(s, steps[0]), steps[1..])
  }

  /** A key is published when no thread can have read it before. */
  lemma FreshWhileFew(b: nat, s: State, m: State, step: Step)
    requires Inv(s) && Enabled(m, step) && Enabled(s, step) && s.key < Pow2(b)
    requires Tracks(b, Apply(s, step), Apply(m, step)) && Observe(m, step) == Observe(s, step)
    ensures Fresh(m, step)
  {
    var s', m' := Apply(s, step), Apply(m, step);
    if Observe(s, step).Pushed? {
      forall t | t in m'.thr ensures SeenTop(m'.thr[t]) != Some(m'.top) {
        assert m'.thr[t] == CutPc(b, s'.thr[t]);
        if t != step.t {
          UnreadKey(s, step.t, t, b);
        }
      }
    }
  }

  lemma UnreadKey(s: State, t: Tid, u: Tid, b: nat)
    requires Inv(s) && t in s.thr && s.thr[t].SwingTop? && u in s.thr && s.key < Pow2(b)
    ensures SeenTop(CutPc(b, s.thr[u])) != Some(CutPtr(b, Tagged(s.thr[t].a, s.thr[t].key)))
  {
    assert LocalOk(s, t, s.thr[t]) && LocalOk(s, u, s.thr[u]);
    var seen := SeenTop(s.thr[u]);
    if seen.Some? && seen.value.Tagged? {
      DivModUnique(0, seen.value.key, Pow2(b));
      DivModUnique(0, s.thr[t].key, Pow2(b));
    }
  }

  lemma {:induction false} FewDraws(b: nat, s: State, m: State, steps: seq<Step>)
    requires Inv(s) && Tracks(b, s, m) && Held(b, s) && Runs(m, steps) && s.key + DrawCount(m, steps) < Pow2(b)
    ensures FreshRun(m, steps)
    decreases |steps|
  {
    if steps != [] {
      if steps[0].Advance? {
        HeldAgrees(b, s, steps[0].t);
      }
      StepTracks(b, s, m, steps[0]);
      FreshWhileFew(b, s, m, steps[0]);
      HeldStep(b, s, m, steps[0]);
      StepInv(s, steps[0]);
      KeyMoves(b, s, m, steps[0]);
      FewDraws(b, Apply(s, steps[0]), Apply(m, steps[0]), steps[1..]);
    }
  }

  lemma KeyMoves(b: nat, s: State, m: State, step: Step)
    requires Tracks(b, s, m) && Enabled(s, step) && Enabled(m, step)
    ensures Apply(s, step).key == s.key + Bit(Draws(m, step))
  {
    if step.Advance? {
      assert m.thr[step.t] == CutPc(b, s.thr[step.t]);
    }
  }

  /** A run that draws fewer than 2^b keys is last in, first out: with the 16 bits of the code,
      65535 pushes. */
  lemma LifoOfFewPushes(m0: State, steps: seq<Step>)
    requires InitWrapped(m0) && Runs(m0, steps) && DrawCount(m0, steps) < Pow2(m0.bits.value)
    ensures FreshRun(m0, steps) && Replay([], Events(m0, steps)) == Some(Stacked(End(m0, steps)))
  {
    InitTracks(m0);
    FewDraws(m0.bits.value, m0.(bits := None), m0, steps);
    LifoWrapped(m0, steps);
  }
}
