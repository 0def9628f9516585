/** The CAS queue with tags of a fixed width, as the code has them. A run of it is a run of the
    queue with natural tags, value by value, as long as no swap publishes a word of the tail or of
    the head that a thread still holds from a read of it. */
module QueueWrap {
  import opened Bits
  import opened Counting
  import opened LockFreeQueue
  import opened QueueInvariant
  import opened QueueTags
  import opened QueueTheorems
  import opened Wrappers

  // ----- Cutting tags to b bits -----

  function CutPtr(b: nat, p: Ptr): Ptr {
    if p.Tagged? then Tagged(p.adr, p.tag % Pow2(b)) else Null
  }

  function CutPc(b: nat, pc: Pc): Pc {
    match pc
    case ReadTail(a, d, acc) => ReadTail(a, d, acc % Pow2(b))
    case SwingTail(a, d, acc, seen) => SwingTail(a, d, acc % Pow2(b), CutPtr(b, seen))
    case LinkPrev(a, d, acc, seen, slot) => LinkPrev(a, d, acc % Pow2(b), CutPtr(b, seen), slot)
    case TailNext(seen) => TailNext(CutPtr(b, seen))
    case HelpRead(seen) => HelpRead(CutPtr(b, seen))
    case HelpSwing(seen, next) => HelpSwing(CutPtr(b, seen), CutPtr(b, next))
    case HeadNext(seen) => HeadNext(CutPtr(b, seen))
    case ReadData(seen, succ) => ReadData(CutPtr(b, seen), CutPtr(b, succ))
    case SwingHead(seen, succ, d) => SwingHead(CutPtr(b, seen), CutPtr(b, succ), d)
    case _ => pc
  }

  function CutMem(b: nat, mem: map<Addr, Cell>): map<Addr, Cell> {
    map a | a in mem :: mem[a].(next := CutPtr(b, mem[a].next))
  }

  function CutThr(b: nat, thr: map<Tid, Pc>): map<Tid, Pc> {
    map t | t in thr :: CutPc(b, thr[t])
  }

  function CutChain(b: nat, chain: seq<Entry>): seq<Entry> {
    seq(|chain|, i requires 0 <= i < |chain| => chain[i].(ptr := CutPtr(b, chain[i].ptr)))
  }

  /** m is s with all tags cut to b bits. */
  ghost predicate Tracks(b: nat, s: State, m: State) {
    && m.bits == Some(b) && s.bits == None
    && m.mem == CutMem(b, s.mem) && m.head == CutPtr(b, s.head) && m.tail == CutPtr(b, s.tail)
    && m.size == s.size && m.limit == s.limit && m.thr == CutThr(b, s.thr)
    && m.chain == CutChain(b, s.chain) && m.taken == s.taken
  }

  // ----- Lockstep -----

  lemma PutTracks(b: nat, s: State, m: State, a: Addr, c: Cell)
    requires Tracks(b, s, m)
    ensures Tracks(b, Put(s, a, c), Put(m, a, c.(next := CutPtr(b, c.next))))
  {
    assert CutMem(b, s.mem[a := c]) == CutMem(b, s.mem)[a := c.(next := CutPtr(b, c.next))];
  }

  lemma GotoTracks(b: nat, s: State, m: State, t: Tid, pc: Pc)
    requires Tracks(b, s, m)
    ensures Tracks(b, Goto(s, t, pc), Goto(m, t, CutPc(b, pc)))
  {
    assert CutThr(b, s.thr[t := pc]) == CutThr(b, s.thr)[t := CutPc(b, pc)];
  }

  /** What a thread has read from the tail and not compared yet. */
  function SeenTail(pc: Pc): Option<Ptr> {
    match pc
    case SwingTail(_, _, _, seen) => Some(seen)
    case TailNext(seen) => Some(seen)
    case HelpRead(seen) => Some(seen)
    case HelpSwing(seen, _) => Some(seen)
    case _ => None
  }

  /** The same for the head. */
  function SeenHead(pc: Pc): Option<Ptr> {
    match pc
    case HeadNext(seen) => Some(seen)
    case ReadData(seen, _) => Some(seen)
    case SwingHead(seen, _, _) => Some(seen)
    case _ => None
  }

  /** If the word of seen is the word of p, it is p. */
  ghost predicate HeldAt(b: nat, seen: Option<Ptr>, p: Ptr) {
    seen.Some? && CutPtr(b, seen.value) == CutPtr(b, p) ==> seen.value == p
  }

  /** A CAS of thread t decides the same on words and on values. */
  ghost predicate CasAgrees(b: nat, s: State, t: Tid) {
    t in s.thr ==> HeldAt(b, SeenTail(s.thr[t]), s.tail) && HeldAt(b, SeenHead(s.thr[t]), s.head)
  }

  lemma GroundedTracks(b: nat, s: State, m: State, t: Tid)
    requires Tracks(b, s, m) && t in s.thr
    ensures m.thr[t] == CutPc(b, s.thr[t]) && (Grounded(m, m.thr[t]) <==> Grounded(s, s.thr[t]))
  {
  }

  ghost predicate SameMove(b: nat, s: State, m: State, t: Tid)
    requires Enabled(m, Advance(t))
  {
    Enabled(s, Advance(t)) && Tracks(b, Move(s, t), Move(m, t)) && Observe(m, Advance(t)) == Observe(s, Advance(t))
  }

  lemma WinTailTracks(b: nat, s: State, m: State, t: Tid)
    requires Tracks(b, s, m) && Enabled(m, Advance(t)) && s.thr[t].SwingTail? && s.tail == s.thr[t].seen
    ensures SameMove(b, s, m, t)
  {
    GroundedTracks(b, s, m, t);
    var a := s.thr[t].a;
    PutTracks(b, s, m, a, s.mem[a].(owner := InChain(|s.chain|)));
    GotoTracks(b, s, m, t, Move(s, t).thr[t]);
    assert Move(m, t).chain == CutChain(b, Move(s, t).chain);
  }

  lemma SwingTailTracks(b: nat, s: State, m: State, t: Tid)
    requires Tracks(b, s, m) && Enabled(m, Advance(t)) && s.thr[t].SwingTail? && CasAgrees(b, s, t)
    ensures SameMove(b, s, m, t)
  {
    GroundedTracks(b, s, m, t);
    if s.tail == s.thr[t].seen {
      WinTailTracks(b, s, m, t);
    } else {
      GotoTracks(b, s, m, t, Move(s, t).thr[t]);
    }
  }

  lemma LinkTracks(b: nat, s: State, m: State, t: Tid)
    requires Tracks(b, s, m) && Enabled(m, Advance(t)) && s.thr[t].LinkPrev?
    ensures SameMove(b, s, m, t)
  {
    GroundedTracks(b, s, m, t);
    var pc := s.thr[t];
    PutTracks(b, s, m, pc.seen.adr, s.mem[pc.seen.adr].(next := Tagged(pc.a, pc.acc)));
    GotoTracks(b, s, m, t, Move(s, t).thr[t]);
    assert Move(m, t).chain == CutChain(b, Move(s, t).chain);
  }

  lemma SwingHeadTracks(b: nat, s: State, m: State, t: Tid)
    requires Tracks(b, s, m) && Enabled(m, Advance(t)) && s.thr[t].SwingHead? && CasAgrees(b, s, t)
    ensures SameMove(b, s, m, t)
  {
    GroundedTracks(b, s, m, t);
    var seen := s.thr[t].seen;
    PutTracks(b, s, m, seen.adr, s.mem[seen.adr].(owner := HeldBy(t)));
    GotoTracks(b, s, m, t, Move(s, t).thr[t]);
  }

  lemma ReadTailTracks(b: nat, s: State, m: State, t: Tid)
    requires Tracks(b, s, m) && Enabled(m, Advance(t)) && s.thr[t].ReadTail?
    ensures SameMove(b, s, m, t)
  {
    GroundedTracks(b, s, m, t);
    OrCut(s.thr[t].acc, NextTag(s), b);
    if s.tail.Tagged? {
      CutNext(b, s.tail.tag);
    } else {
      DivModUnique(0, 0, Pow2(b));
    }
    GotoTracks(b, s, m, t, Move(s, t).thr[t]);
  }

  lemma WriteTracks(b: nat, s: State, m: State, t: Tid)
    requires Tracks(b, s, m) && Enabled(m, Advance(t))
    requires s.thr[t].WriteData? || s.thr[t].WriteNull? || s.thr[t].Release?
    ensures SameMove(b, s, m, t)
  {
    GroundedTracks(b, s, m, t);
    DivModUnique(0, 0, Pow2(b));
    var a := s.thr[t].a;
    PutTracks(b, s, m, a, Move(s, t).mem[a]);
    GotoTracks(b, s, m, t, Move(s, t).thr[t]);
  }

  lemma HelpTracks(b: nat, s: State, m: State, t: Tid)
    requires Tracks(b, s, m) && Enabled(m, Advance(t)) && CasAgrees(b, s, t)
    requires s.thr[t].TailNext? || s.thr[t].HelpRead? || s.thr[t].HelpSwing?
    ensures SameMove(b, s, m, t)
  {
    GroundedTracks(b, s, m, t);
    GotoTracks(b, s, m, t, Move(s, t).thr[t]);
  }

  lemma HeadTracks(b: nat, s: State, m: State, t: Tid)
    requires Tracks(b, s, m) && Enabled(m, Advance(t)) && (s.thr[t].HeadNext? || s.thr[t].ReadData?)
    ensures SameMove(b, s, m, t)
  {
    GroundedTracks(b, s, m, t);
    GotoTracks(b, s, m, t, Move(s, t).thr[t]);
  }

  lemma SizeTracks(b: nat, s: State, m: State, t: Tid)
    requires Tracks(b, s, m) && Enabled(m, Advance(t))
    requires s.thr[t].CheckSize? || s.thr[t].CountUp? || s.thr[t].Reserve? || s.thr[t].Undo?
    ensures SameMove(b, s, m, t)
  {
    GroundedTracks(b, s, m, t);
    GotoTracks(b, s, m, t, Move(s, t).thr[t]);
  }

  lemma FindTracks(b: nat, s: State, m: State, t: Tid)
    requires Tracks(b, s, m) && Enabled(m, Advance(t)) && (s.thr[t].FindTail? || s.thr[t].FindHead?)
    ensures SameMove(b, s, m, t)
  {
    GroundedTracks(b, s, m, t);
    GotoTracks(b, s, m, t, Move(s, t).thr[t]);
  }

  lemma MoveTracks(b: nat, s: State, m: State, t: Tid)
    requires Tracks(b, s, m) && Enabled(m, Advance(t)) && CasAgrees(b, s, t)
    ensures SameMove(b, s, m, t)
  {
    match s.thr[t] {
      case SwingTail(_, _, _, _) => SwingTailTracks(b, s, m, t);
      case LinkPrev(_, _, _, _, _) => LinkTracks(b, s, m, t);
      case SwingHead(_, _, _) => SwingHeadTracks(b, s, m, t);
      case ReadTail(_, _, _) => ReadTailTracks(b, s, m, t);
      case WriteData(_, _) => WriteTracks(b, s, m, t);
      case WriteNull(_, _) => WriteTracks(b, s, m, t);
      case Release(_, _) => WriteTracks(b, s, m, t);
      case TailNext(_) => HelpTracks(b, s, m, t);
      case HelpRead(_) => HelpTracks(b, s, m, t);
      case HelpSwing(_, _) => HelpTracks(b, s, m, t);
      case HeadNext(_) => HeadTracks(b, s, m, t);
      case ReadData(_, _) => HeadTracks(b, s, m, t);
      case FindTail => FindTracks(b, s, m, t);
      case FindHead => FindTracks(b, s, m, t);
      case _ => SizeTracks(b, s, m, t);
    }
  }

  lemma StepTracks(b: nat, s: State, m: State, step: Step)
    requires Tracks(b, s, m) && Enabled(m, step)
    requires step.Advance? ==> CasAgrees(b, s, step.t)
    ensures Enabled(s, step) && Tracks(b, Apply(s, step), Apply(m, step)) && Observe(m, step) == Observe(s, step)
  {
    match step {
      case Spawn(t) => GotoTracks(b, s, m, t, Idle);
      case StartEnqueue(t, d) => GotoTracks(b, s, m, t, Apply(s, step).thr[t]);
      case StartDequeue(t) => GotoTracks(b, s, m, t, Reserve);
      case Allocate(t, a) =>
        PutTracks(b, s, m, a, s.mem[a].(owner := HeldBy(t)));
        GotoTracks(b, s, m, t, WriteData(a, s.thr[t].d));
      case Advance(t) => MoveTracks(b, s, m, t);
      case Carve(a, data, next) => PutTracks(b, s, m, a, Cell(data, next, InPool));
      case Scribble(a, data, next) => PutTracks(b, s, m, a, Cell(data, next, InPool));
    }
  }

  // ----- When every CAS agrees -----

  /** No thread holds a word that is now the word of another tail or head. */
  ghost predicate Held(b: nat, s: State) {
    forall t {:trigger s.thr[t]} :: t in s.thr ==> CasAgrees(b, s, t)
  }

  /** The step publishes no word of the tail or the head that a thread still holds from a read. */
  ghost predicate Fresh(m: State, step: Step)
    requires Enabled(m, step)
  {
    var m' := Apply(m, step);
    match Observe(m, step)
    case Enqueued(_) => forall t :: t in m'.thr ==> SeenTail(m'.thr[t]) != Some(m'.tail)
    case Dequeued(_) => forall t :: t in m'.thr ==> SeenHead(m'.thr[t]) != Some(m'.head)
    case Silent => true
  }

  /** Only a won swap changes a shared pointer: the helping CAS never does. */
  lemma SharedMoves(s: State, step: Step)
    requires Inv(s) && Enabled(s, step)
    ensures Apply(s, step).tail == s.tail || Observe(s, step).Enqueued?
    ensures Apply(s, step).head == s.head || Observe(s, step).Dequeued?
  {
    if step.Advance? {
      assert LocalOk(s, step.t, s.thr[step.t]);
    }
  }

  /** What one thread holds after a step: what it held, or nothing, or the present value. */
  ghost predicate SeenNext(s: State, s': State, t: Tid)
    requires t in s'.thr
  {
    var tail, head := SeenTail(s'.thr[t]), SeenHead(s'.thr[t]);
    && (tail == None || (t in s.thr && tail == SeenTail(s.thr[t])) || tail == Some(s'.tail))
    && (head == None || (t in s.thr && head == SeenHead(s.thr[t])) || head == Some(s'.head))
  }

  lemma MoveSeen(s: State, t: Tid)
    requires Enabled(s, Advance(t))
    ensures t in Move(s, t).thr && SeenNext(s, Move(s, t), t)
  {
  }

  lemma SeenMoves(s: State, step: Step, t: Tid)
    requires Enabled(s, step) && t in Apply(s, step).thr
    ensures SeenNext(s, Apply(s, step), t)
  {
    if step == Advance(t) {
      MoveSeen(s, t);
    } else if step.Advance? {
      OthersStand(s, step.t, t);
    }
  }

  lemma HeldOne(b: nat, s: State, m: State, step: Step, t: Tid)
    requires Inv(s) && Held(b, s) && Enabled(m, step) && Fresh(m, step)
    requires Enabled(s, step) && Tracks(b, Apply(s, step), Apply(m, step)) && Observe(m, step) == Observe(s, step)
    ensures CasAgrees(b, Apply(s, step), t)
  {
    var s', m' := Apply(s, step), Apply(m, step);
    if t in s'.thr {
      assert t in m'.thr && m'.thr[t] == CutPc(b, s'.thr[t]);
      SharedMoves(s, step);
      SeenMoves(s, step, t);
      assert t in s.thr ==> CasAgrees(b, s, t);
    }
  }

  lemma HeldStep(b: nat, s: State, m: State, step: Step)
    requires Inv(s) && Held(b, s) && Enabled(m, step) && Fresh(m, step)
    requires Enabled(s, step) && Tracks(b, Apply(s, step), Apply(m, step)) && Observe(m, step) == Observe(s, step)
    ensures Held(b, Apply(s, step))
  {
    forall t | t in Apply(s, step).thr ensures CasAgrees(b, Apply(s, step), t) {
      HeldOne(b, s, m, step, t);
    }
  }

  // ----- Runs -----

  ghost predicate FreshRun(m: State, steps: seq<Step>)
    requires Runs(m, steps)
    decreases |steps|
  {
    steps == [] || (Fresh(m, steps[0]) && FreshRun(Apply(m, steps[0]), steps[1..]))
  }

  /** The same schedule, step by step, on words and on values. */
  ghost predicate SameRun(b: nat, s: State, m: State, steps: seq<Step>)
    requires Runs(m, steps)
  {
    && Runs(s, steps) && Tracks(b, End(s, steps), End(m, steps))
    && Enqueues(m, steps) == Enqueues(s, steps) && Dequeues(m, steps) == Dequeues(s, steps)
  }

  lemma {:induction false} Shadow(b: nat, s: State, m: State, steps: seq<Step>)
    requires Inv(s) && Tracks(b, s, m) && Held(b, s) && Runs(m, steps) && FreshRun(m, steps)
    ensures SameRun(b, s, m, steps)
    decreases |steps|
  {
    if steps != [] {
      StepTracks(b, s, m, steps[0]);
      HeldStep(b, s, m, steps[0]);
      StepInv(s, steps[0]);
      Shadow(b, Apply(s, steps[0]), Apply(m, steps[0]), steps[1..]);
    }
  }

  /** A new queue with tags of a fixed width. */
  ghost predicate InitWrapped(m: State) {
    m.bits.Some? && Init(m.(bits := None)) && forall a :: a in m.mem ==> Fits(m, m.mem[a].next)
  }

  lemma InitTracks(m0: State)
    requires InitWrapped(m0)
    ensures var s0 := m0.(bits := None); Inv(s0) && Tracks(m0.bits.value, s0, m0) && Held(m0.bits.value, s0)
  {
    var b, s0 := m0.bits.value, m0.(bits := None);
    DivModUnique(0, 0, Pow2(b));
    assert CutMem(b, m0.mem) == m0.mem;
    assert CutThr(b, m0.thr) == m0.thr;
    assert CutChain(b, m0.chain) == m0.chain;
    InitInv(s0);
  }

  /** A run in which no swap publishes a word that a thread still holds is, step by step and up to
      the width of the tags, a run of the queue with natural tags. */
  lemma WrappedIsNatural(m0: State, steps: seq<Step>)
    requires InitWrapped(m0) && Runs(m0, steps) && FreshRun(m0, steps)
    ensures var s0 := m0.(bits := None); Init(s0) && SameRun(m0.bits.value, s0, m0, steps) && Reachable(End(s0, steps))
  {
    InitTracks(m0);
    Shadow(m0.bits.value, m0.(bits := None), m0, steps);
  }

  lemma QueuedTracks(b: nat, s: State, m: State)
    requires Tracks(b, s, m) && First(s) <= Last(s)
    ensures First(m) <= Last(m) && Queued(m) == Queued(s)
  {
  }

  /** So such a run is first in, first out, with nothing lost and nothing twice. */
  lemma FifoWrapped(m0: State, steps: seq<Step>)
    requires InitWrapped(m0) && Runs(m0, steps) && FreshRun(m0, steps)
    ensures First(End(m0, steps)) <= Last(End(m0, steps))
    ensures Dequeues(m0, steps) <= Enqueues(m0, steps)
    ensures Enqueues(m0, steps) == Dequeues(m0, steps) + Queued(End(m0, steps))
  {
    WrappedIsNatural(m0, steps);
    Fifo(m0.(bits := None), steps);
    QueuedTracks(m0.bits.value, End(m0.(bits := None), steps), End(m0, steps));
  }

  // ----- Runs in which no tag comes back -----

  /** The step reads a tail with the last tag, after which the tag field starts over. */
  predicate ReadsLastTag(m: State, step: Step) {
    && step.Advance? && step.t in m.thr && m.thr[step.t].ReadTail?
    && m.tail.Tagged? && m.bits.Some? && m.tail.tag + 1 == Pow2(m.bits.value)
  }

  ghost predicate LastTagUnread(m: State, steps: seq<Step>)
    requires Runs(m, steps)
    decreases |steps|
  {
    steps == [] || (!ReadsLastTag(m, steps[0]) && LastTagUnread(Apply(m, steps[0]), steps[1..]))
  }

  ghost predicate TagsBelow(b: nat, s: State) {
    && s.tail.Tagged? && s.tail.tag < Pow2(b)
    && forall t {:trigger s.thr[t]} :: t in s.thr ==> Accumulated(s.thr[t]) < Pow2(b)
  }

  lemma OwnBelow(b: nat, s: State, t: Tid)
    requires s.bits == None && TagsBelow(b, s) && Enabled(s, Advance(t))
    requires s.thr[t].LinkPrev? ==> s.mem[s.thr[t].seen.adr].next == Null
    requires s.thr[t].ReadTail? ==> s.tail.tag + 1 < Pow2(b)
    ensures t in Move(s, t).thr && Accumulated(Move(s, t).thr[t]) < Pow2(b)
  {
    if s.thr[t].ReadTail? {
      OrWidth(s.thr[t].acc, s.tail.tag + 1, b);
    } else {
      assert Accumulated(Move(s, t).thr[t]) == 0 || Accumulated(Move(s, t).thr[t]) == Accumulated(s.thr[t]);
    }
  }

  lemma RoomForTag(b: nat, s: State, m: State, t: Tid)
    requires Tracks(b, s, m) && TagsBelow(b, s) && t in s.thr && s.thr[t].ReadTail? && !ReadsLastTag(m, Advance(t))
    ensures s.tail.tag + 1 < Pow2(b)
  {
    DivModUnique(0, s.tail.tag, Pow2(b));
    assert m.thr[t] == CutPc(b, s.thr[t]);
  }

  lemma StartBelow(b: nat, s: State, step: Step, t: Tid)
    requires TagsBelow(b, s) && Enabled(s, step) && !step.Advance? && t in Apply(s, step).thr
    ensures Accumulated(Apply(s, step).thr[t]) < Pow2(b)
  {
  }

  lemma AccumulatedBelow(b: nat, s: State, m: State, step: Step, t: Tid)
    requires Inv(s) && Tracks(b, s, m) && TagsBelow(b, s) && Enabled(s, step) && !ReadsLastTag(m, step)
    requires t in Apply(s, step).thr
    ensures Accumulated(Apply(s, step).thr[t]) < Pow2(b)
  {
    if !step.Advance? {
      StartBelow(b, s, step, t);
    } else if step.t != t {
      OthersStand(s, step.t, t);
    } else {
      if s.thr[t].ReadTail? {
        RoomForTag(b, s, m, t);
      } else if s.thr[t].LinkPrev? {
        LinkFindsNull(s, t);
      }
      OwnBelow(b, s, t);
    }
  }

  lemma TagsStayBelow(b: nat, s: State, m: State, step: Step)
    requires Inv(s) && Tracks(b, s, m) && TagsBelow(b, s) && Enabled(s, step) && !ReadsLastTag(m, step)
    ensures TagsBelow(b, Apply(s, step))
  {
    TailMoves(s, step);
    forall t | t in Apply(s, step).thr ensures Accumulated(Apply(s, step).thr[t]) < Pow2(b) {
      AccumulatedBelow(b, s, m, step, t);
    }
  }

  /** A pointer older than another has another word while tags stay below 2^b. */
  lemma OlderWord(b: nat, p: Ptr, q: Ptr)
    requires p.Tagged? && q.Tagged? && p.tag < q.tag < Pow2(b)
    ensures CutPtr(b, p) != CutPtr(b, q)
  {
    DivModUnique(0, p.tag, Pow2(b));
    DivModUnique(0, q.tag, Pow2(b));
  }

  lemma UnreadTail(b: nat, s: State, t: Tid, u: Tid)
    requires Inv(s) && TagsBelow(b, s) && t in s.thr && s.thr[t].SwingTail? && s.tail == s.thr[t].seen
    requires u in s.thr && SeenTail(s.thr[u]).Some?
    ensures CutPtr(b, SeenTail(s.thr[u]).value) != CutPtr(b, Tagged(s.thr[t].a, s.thr[t].acc))
  {
    assert LocalOk(s, t, s.thr[t]) && LocalOk(s, u, s.thr[u]);
    OlderWord(b, SeenTail(s.thr[u]).value, Tagged(s.thr[t].a, s.thr[t].acc));
  }

  lemma UnreadHead(b: nat, s: State, t: Tid, u: Tid)
    requires Inv(s) && TagsBelow(b, s) && t in s.thr && s.thr[t].SwingHead? && s.head == s.thr[t].seen
    requires u in s.thr && SeenHead(s.thr[u]).Some?
    ensures CutPtr(b, SeenHead(s.thr[u]).value) != CutPtr(b, s.thr[t].succ)
  {
    assert LocalOk(s, t, s.thr[t]) && LocalOk(s, u, s.thr[u]);
    assert s.chain[First(s)].ptr.tag < s.chain[First(s) + 1].ptr.tag;
    OlderWord(b, SeenHead(s.thr[u]).value, s.thr[t].succ);
  }

  /** A won tail swap publishes a word that nobody has read. */
  lemma FreshTail(b: nat, s: State, m: State, t: Tid)
    requires Inv(s) && TagsBelow(b, s) && t in s.thr && s.thr[t].SwingTail? && s.thr[t].a in s.mem
    requires s.tail == s.thr[t].seen
    requires Enabled(m, Advance(t)) && Tracks(b, AfterTail(s, t), Move(m, t))
    ensures forall u :: u in Move(m, t).thr ==> SeenTail(Move(m, t).thr[u]) != Some(Move(m, t).tail)
  {
    var s', m' := AfterTail(s, t), Move(m, t);
    forall u | u in m'.thr ensures SeenTail(m'.thr[u]) != Some(m'.tail) {
      assert m'.thr[u] == CutPc(b, s'.thr[u]);
      if SeenTail(s'.thr[u]).Some? {
        UnreadTail(b, s, t, u);
      }
    }
  }

  lemma FreshHead(b: nat, s: State, m: State, t: Tid)
    requires Inv(s) && TagsBelow(b, s) && CanWinHead(s, t)
    requires Enabled(m, Advance(t)) && Tracks(b, AfterHead(s, t), Move(m, t))
    ensures forall u :: u in Move(m, t).thr ==> SeenHead(Move(m, t).thr[u]) != Some(Move(m, t).head)
  {
    var s', m' := AfterHead(s, t), Move(m, t);
    forall u | u in m'.thr ensures SeenHead(m'.thr[u]) != Some(m'.head) {
      assert m'.thr[u] == CutPc(b, s'.thr[u]);
      if SeenHead(s'.thr[u]).Some? {
        UnreadHead(b, s, t, u);
      }
    }
  }

  lemma FreshBelow(b: nat, s: State, m: State, step: Step)
    requires Inv(s) && TagsBelow(b, s) && Enabled(m, step) && Enabled(s, step)
    requires Tracks(b, Apply(s, step), Apply(m, step)) && Observe(m, step) == Observe(s, step)
    ensures Fresh(m, step)
  {
    match Observe(s, step) {
      case Enqueued(_) => FreshTail(b, s, m, step.t);
      case Dequeued(_) => FreshHead(b, s, m, step.t);
      case Silent =>
    }
  }

  lemma {:induction false} FreshRunBelow(b: nat, s: State, m: State, steps: seq<Step>)
    requires Inv(s) && Tracks(b, s, m) && Held(b, s) && TagsBelow(b, s) && Runs(m, steps) && LastTagUnread(m, steps)
    ensures FreshRun(m, steps)
    decreases |steps|
  {
    if steps != [] {
      StepTracks(b, s, m, steps[0]);
      FreshBelow(b, s, m, steps[0]);
      HeldStep(b, s, m, steps[0]);
      TagsStayBelow(b, s, m, steps[0]);
      StepInv(s, steps[0]);
      FreshRunBelow(b, Apply(s, steps[0]), Apply(m, steps[0]), steps[1..]);
    }
  }

  /** As long as no enqueuer reads a tail whose tag is the last one, 2^b - 1, no word comes back at
      all and the queue is first in, first out. */
  lemma FifoUntilLastTag(m0: State, steps: seq<Step>)
    requires InitWrapped(m0) && Runs(m0, steps) && LastTagUnread(m0, steps)
    ensures FreshRun(m0, steps) && Dequeues(m0, steps) <= Enqueues(m0, steps)
  {
    InitTracks(m0);
    FreshRunBelow(m0.bits.value, m0.(bits := None), m0, steps);
    FifoWrapped(m0, steps);
  }
}
