/** Reference counting of packet buffers across any interleaving of handle operations: one step
    is one Interlocked operation on `refcnt` or one pool call.

    A reference is a CPacket handle or the raw token MakePacketPtr returns. The caller's duty of
    C++ is kept: a handle or token is used only while it exists. */
module PacketRefs {
  import opened Wrappers

  type Buf = nat
  type RefId = nat

  datatype Ref = Handle(buf: Buf) | Token(buf: Buf)

  /** `reserved`: buffers a constructor has taken from the pool and not counted yet; `dying`:
      buffers whose count reached zero and whose Free call is still to come. `lost`, `allocs`
      and `frees` are history variables: references overwritten without being released, and
      calls of Alloc and Free. */
  datatype State = State(
    refcnt: map<Buf, int>,
    refs: map<RefId, Ref>,
    pool: set<Buf>,
    reserved: map<RefId, Buf>,
    dying: set<Buf>,
    lost: map<Buf, nat>,
    allocs: map<Buf, nat>,
    frees: map<Buf, nat>)

  datatype Step =
    | Alloc(h: RefId, b: Buf)       // CPacket(): BufPool.Alloc
    | Construct(h: RefId)           // CPacket(): AddRefcnt(1)
    | Copy(h: RefId, src: RefId)    // CPacket(CPacket&), CPacket(SBuffer*)
    | MakeToken(t: RefId, h: RefId) // MakePacketPtr
    | Adopt(t: RefId)               // CPacket(CPacket*)
    | Destroy(r: RefId)             // ~CPacket, or DecRefcnt on a token
    | Free(b: Buf)                  // the Free call of the DecRefcnt that saw zero
    | Assign(h: RefId, src: RefId)  // operator=

  predicate Init(s: State) {
    && s.pool == s.refcnt.Keys == s.lost.Keys == s.allocs.Keys == s.frees.Keys
    && s.refs == map[] && s.reserved == map[] && s.dying == {}
    && forall b :: b in s.refcnt ==> s.refcnt[b] == 0 && s.lost[b] == 0 && s.allocs[b] == 0 && s.frees[b] == 0
  }

  predicate Unused(s: State, r: RefId) {
    r !in s.refs && r !in s.reserved
  }

  predicate Counted(s: State, b: Buf) {
    b in s.refcnt && b in s.lost && b in s.allocs && b in s.frees
  }

  predicate Enabled(s: State, step: Step) {
    match step
    case Alloc(h, b) => Unused(s, h) && b in s.pool && Counted(s, b)
    case Construct(h) => h in s.reserved && Counted(s, s.reserved[h])
    case Copy(h, src) => Unused(s, h) && src in s.refs && Counted(s, s.refs[src].buf)
    case MakeToken(t, h) => Unused(s, t) && h in s.refs && s.refs[h].Handle? && Counted(s, s.refs[h].buf)
    case Adopt(t) => t in s.refs && s.refs[t].Token?
    case Destroy(r) => r in s.refs && Counted(s, s.refs[r].buf)
    case Free(b) => b in s.dying && Counted(s, b)
    case Assign(h, src) =>
      && h in s.refs && s.refs[h].Handle? && src in s.refs && s.refs[src].Handle?
      && Counted(s, s.refs[h].buf) && Counted(s, s.refs[src].buf)
  }

  function AddRef(s: State, r: RefId, ref: Ref): State
    requires ref.buf in s.refcnt
  {
    s.(refcnt := s.refcnt[ref.buf := s.refcnt[ref.buf] + 1], refs := s.refs[r := ref])
  }

  function Apply(s: State, step: Step): State
    requires Enabled(s, step)
  {
    match step
    case Alloc(h, b) =>
      s.(pool := s.pool - {b}, reserved := s.reserved[h := b], allocs := s.allocs[b := s.allocs[b] + 1])
    case Construct(h) => AddRef(s.(reserved := s.reserved - {h}), h, Handle(s.reserved[h]))
    case Copy(h, src) => AddRef(s, h, Handle(s.refs[src].buf))
    case MakeToken(t, h) => AddRef(s, t, Token(s.refs[h].buf))
    case Adopt(t) => s.(refs := s.refs[t := Handle(s.refs[t].buf)])
    case Destroy(r) =>
      var b := s.refs[r].buf;
      s.(refcnt := s.refcnt[b := s.refcnt[b] - 1], refs := s.refs - {r},
         dying := if s.refcnt[b] - 1 == 0 then s.dying + {b} else s.dying)
    case Free(b) => s.(dying := s.dying - {b}, pool := s.pool + {b}, frees := s.frees[b := s.frees[b] + 1])
    case Assign(h, src) =>
      var was := s.refs[h].buf;
      AddRef(s, h, Handle(s.refs[src].buf)).(lost := s.lost[was := s.lost[was] + 1])
  }

  // ----- Invariant -----

  ghost function RefsTo(refs: map<RefId, Ref>, b: Buf): set<RefId> {
    set r | r in refs && refs[r].buf == b
  }

  ghost function ReservedFor(reserved: map<RefId, Buf>, b: Buf): set<RefId> {
    set h | h in reserved && reserved[h] == b
  }

  /** What one buffer's bookkeeping says. */
  ghost predicate BufOk(s: State, b: Buf) {
    && Counted(s, b)
    && s.refcnt[b] == |RefsTo(s.refs, b)| + s.lost[b]
    && (b in s.pool ==> s.refcnt[b] == 0 && b !in s.dying && |ReservedFor(s.reserved, b)| == 0)
    && (b in s.dying ==> s.refcnt[b] == 0 && |ReservedFor(s.reserved, b)| == 0)
    && (b !in s.pool && b !in s.dying ==>
          if |ReservedFor(s.reserved, b)| == 0 then s.refcnt[b] > 0
          else |ReservedFor(s.reserved, b)| == 1 && s.refcnt[b] == 0)
    && s.allocs[b] == s.frees[b] + (if b in s.pool then 0 else 1)
  }

  /** Everything mentioned is a known buffer, and nothing is both a reference and a reservation. */
  ghost predicate Closed(s: State) {
    && s.pool <= s.refcnt.Keys && s.dying <= s.refcnt.Keys
    && (forall r :: r in s.refs ==> s.refs[r].buf in s.refcnt && r !in s.reserved)
    && (forall h :: h in s.reserved ==> s.reserved[h] in s.refcnt)
  }

  ghost predicate Inv(s: State) {
    && Closed(s)
    && (forall b {:trigger BufOk(s, b)} :: b in s.refcnt ==> BufOk(s, b))
  }

  lemma InitInv(s: State)
    requires Init(s)
    ensures Inv(s)
  {
    forall b | b in s.refcnt ensures BufOk(s, b) {
      assert RefsTo(s.refs, b) == {} && ReservedFor(s.reserved, b) == {};
    }
  }

  lemma Plus<T>(s: set<T>, x: T)
    ensures |s + {x}| == |s| + (if x in s then 0 else 1)
  {
    if x in s {
      assert s + {x} == s;
    }
  }

  lemma Minus<T>(s: set<T>, x: T)
    ensures |s - {x}| == |s| - (if x in s then 1 else 0)
  {
    if x !in s {
      assert s - {x} == s;
    }
  }

  /** Adding, redirecting or dropping one reference, seen from every buffer. */
  lemma RefsToUpdate(refs: map<RefId, Ref>, r: RefId, ref: Ref, b: Buf)
    ensures |RefsTo(refs[r := ref], b)|
         == |RefsTo(refs, b)| - (if r in refs && refs[r].buf == b then 1 else 0) + (if ref.buf == b then 1 else 0)
  {
    var rest := RefsTo(refs, b) - {r};
    Minus(RefsTo(refs, b), r);
    Plus(rest, r);
    assert RefsTo(refs[r := ref], b) == if ref.buf == b then rest + {r} else rest;
  }

  lemma RefsToRemove(refs: map<RefId, Ref>, r: RefId, b: Buf)
    ensures |RefsTo(refs - {r}, b)| == |RefsTo(refs, b)| - (if r in refs && refs[r].buf == b then 1 else 0)
  {
    Minus(RefsTo(refs, b), r);
    assert RefsTo(refs - {r}, b) == RefsTo(refs, b) - {r};
  }

  lemma ReservedUpdate(reserved: map<RefId, Buf>, h: RefId, x: Buf, b: Buf)
    requires h !in reserved
    ensures |ReservedFor(reserved[h := x], b)| == |ReservedFor(reserved, b)| + (if x == b then 1 else 0)
  {
    Plus(ReservedFor(reserved, b), h);
    assert ReservedFor(reserved[h := x], b)
        == if x == b then ReservedFor(reserved, b) + {h} else ReservedFor(reserved, b);
  }

  lemma ReservedRemove(reserved: map<RefId, Buf>, h: RefId, b: Buf)
    ensures |ReservedFor(reserved - {h}, b)|
         == |ReservedFor(reserved, b)| - (if h in reserved && reserved[h] == b then 1 else 0)
  {
    Minus(ReservedFor(reserved, b), h);
    assert ReservedFor(reserved - {h}, b) == ReservedFor(reserved, b) - {h};
  }

  /** A buffer with a reference is neither in the pool, nor dying, nor reserved. */
  lemma ReferencedIsLive(s: State, r: RefId)
    requires Inv(s) && r in s.refs
    ensures var b := s.refs[r].buf;
      BufOk(s, b) && s.refcnt[b] > 0 && b !in s.pool && b !in s.dying && |ReservedFor(s.reserved, b)| == 0
  {
    var b := s.refs[r].buf;
    assert BufOk(s, b);
    Minus(RefsTo(s.refs, b), r);
  }

  lemma ReservedIsAlone(s: State, h: RefId)
    requires Inv(s) && h in s.reserved
    ensures var b := s.reserved[h];
      BufOk(s, b) && s.refcnt[b] == 0 && b !in s.pool && b !in s.dying && |ReservedFor(s.reserved, b)| == 1
  {
    var b := s.reserved[h];
    assert BufOk(s, b);
    Minus(ReservedFor(s.reserved, b), h);
  }

  // One step of each kind, seen from one buffer.

  lemma AllocBuf(s: State, h: RefId, x: Buf, b: Buf)
    requires Inv(s) && Enabled(s, Alloc(h, x)) && b in s.refcnt
    ensures BufOk(Apply(s, Alloc(h, x)), b)
  {
    assert BufOk(s, b);
    assert BufOk(s, x);
    ReservedUpdate(s.reserved, h, x, b);
  }

  lemma ConstructBuf(s: State, h: RefId, b: Buf)
    requires Inv(s) && Enabled(s, Construct(h)) && b in s.refcnt
    ensures BufOk(Apply(s, Construct(h)), b)
  {
    assert BufOk(s, b);
    ReservedIsAlone(s, h);
    ReservedRemove(s.reserved, h, b);
    RefsToUpdate(s.refs, h, Handle(s.reserved[h]), b);
  }

  lemma CopyBuf(s: State, h: RefId, src: RefId, b: Buf)
    requires Inv(s) && Enabled(s, Copy(h, src)) && b in s.refcnt
    ensures BufOk(Apply(s, Copy(h, src)), b)
  {
    assert BufOk(s, b);
    ReferencedIsLive(s, src);
    RefsToUpdate(s.refs, h, Handle(s.refs[src].buf), b);
  }

  lemma TokenBuf(s: State, t: RefId, h: RefId, b: Buf)
    requires Inv(s) && Enabled(s, MakeToken(t, h)) && b in s.refcnt
    ensures BufOk(Apply(s, MakeToken(t, h)), b)
  {
    assert BufOk(s, b);
    ReferencedIsLive(s, h);
    RefsToUpdate(s.refs, t, Token(s.refs[h].buf), b);
  }

  lemma AdoptBuf(s: State, t: RefId, b: Buf)
    requires Inv(s) && Enabled(s, Adopt(t)) && b in s.refcnt
    ensures BufOk(Apply(s, Adopt(t)), b)
  {
    assert BufOk(s, b);
    RefsToUpdate(s.refs, t, Handle(s.refs[t].buf), b);
  }

  lemma DestroyBuf(s: State, r: RefId, b: Buf)
    requires Inv(s) && Enabled(s, Destroy(r)) && b in s.refcnt
    ensures BufOk(Apply(s, Destroy(r)), b)
  {
    assert BufOk(s, b);
    ReferencedIsLive(s, r);
    RefsToRemove(s.refs, r, b);
  }

  lemma AssignBuf(s: State, h: RefId, src: RefId, b: Buf)
    requires Inv(s) && Enabled(s, Assign(h, src)) && b in s.refcnt
    ensures BufOk(Apply(s, Assign(h, src)), b)
  {
    assert BufOk(s, b);
    ReferencedIsLive(s, h);
    ReferencedIsLive(s, src);
    RefsToUpdate(s.refs, h, Handle(s.refs[src].buf), b);
  }

  lemma BufStep(s: State, step: Step, b: Buf)
    requires Inv(s) && Enabled(s, step) && b in s.refcnt
    ensures BufOk(Apply(s, step), b)
  {
    match step {
      case Alloc(h, x) => AllocBuf(s, h, x, b);
      case Construct(h) => ConstructBuf(s, h, b);
      case Copy(h, src) => CopyBuf(s, h, src, b);
      case MakeToken(t, h) => TokenBuf(s, t, h, b);
      case Adopt(t) => AdoptBuf(s, t, b);
      case Destroy(r) => DestroyBuf(s, r, b);
      case Free(x) => assert BufOk(s, b);
      case Assign(h, src) => AssignBuf(s, h, src, b);
    }
  }

  lemma StepClosed(s: State, step: Step)
    requires Closed(s) && Enabled(s, step)
    ensures Closed(Apply(s, step)) && Apply(s, step).refcnt.Keys == s.refcnt.Keys
  {
  }

  lemma StepInv(s: State, step: Step)
    requires Inv(s) && Enabled(s, step)
    ensures Inv(Apply(s, step))
  {
    var s' := Apply(s, step);
    StepClosed(s, step);
    forall b | b in s'.refcnt ensures BufOk(s', b) {
      BufStep(s, step, b);
    }
  }

  // ----- Runs -----

  ghost predicate Runs(s: State, steps: seq<Step>)
    decreases |steps|
  {
    steps == [] || (Enabled(s, steps[0]) && Runs(Apply(s, steps[0]), steps[1..]))
  }

  ghost function End(s: State, steps: seq<Step>): State
    requires Runs(s, steps)
    decreases |steps|
  {
    if steps == [] then s else End(Apply(s, steps[0]), steps[1..])
  }

  lemma {:induction false} RunInv(s: State, steps: seq<Step>)
    requires Inv(s) && Runs(s, steps)
    ensures Inv(End(s, steps))
    decreases |steps|
  {
    if steps != [] {
      StepInv(s, steps[0]);
      RunInv(Apply(s, steps[0]), steps[1..]);
    }
  }

  ghost predicate Reachable(s: State) {
    exists s0: State, steps: seq<Step> :: Init(s0) && Runs(s0, steps) && End(s0, steps) == s
  }

  lemma ReachableInv(s: State)
    requires Reachable(s)
    ensures Inv(s)
  {
    var s0: State, steps: seq<Step> :| Init(s0) && Runs(s0, steps) && End(s0, steps) == s;
    InitInv(s0);
    RunInv(s0, steps);
  }

  // ----- Guarantees -----

  /** The count is the number of live handles and outstanding tokens, plus the references that
      operator= overwrote without releasing; it is never negative. */
  lemma CountIsReferences(s: State, b: Buf)
    requires Reachable(s) && b in s.refcnt
    ensures b in s.lost && s.refcnt[b] == |RefsTo(s.refs, b)| + s.lost[b]
  {
    ReachableInv(s);
    assert BufOk(s, b);
  }

  /** A buffer some handle or token can reach is not in the pool and not about to go there. */
  lemma NoUseAfterFree(s: State, r: RefId)
    requires Reachable(s) && r in s.refs
    ensures s.refs[r].buf in s.refcnt && s.refs[r].buf !in s.pool && s.refs[r].buf !in s.dying
  {
    ReachableInv(s);
    ReferencedIsLive(s, r);
  }

  /** Every Alloc of a buffer is matched by at most one Free, and by exactly one when the buffer
      is back in the pool. */
  lemma ReturnedOnce(s: State, b: Buf)
    requires Reachable(s) && b in s.refcnt
    ensures b in s.allocs && b in s.frees && s.allocs[b] == s.frees[b] + (if b in s.pool then 0 else 1)
  {
    ReachableInv(s);
    assert BufOk(s, b);
  }

  /** With every reference gone and no constructor or Free call under way, a buffer is back in
      the pool if and only if no assignment ever overwrote a handle to it. */
  lemma LeakExactly(s: State, b: Buf)
    requires Reachable(s) && b in s.refcnt
    requires RefsTo(s.refs, b) == {} && b !in s.dying && ReservedFor(s.reserved, b) == {}
    ensures b in s.lost && (b in s.pool <==> s.lost[b] == 0)
  {
    ReachableInv(s);
    assert BufOk(s, b);
  }

  // ----- The books against the schedule -----

  lemma {:induction false} LastStep(s: State, steps: seq<Step>)
    requires Runs(s, steps) && steps != []
    ensures var before, last := steps[..|steps| - 1], steps[|steps| - 1];
      Runs(s, before) && Enabled(End(s, before), last) && End(s, steps) == Apply(End(s, before), last)
    decreases |steps|
  {
    var n := |steps| - 1;
    if n == 0 {
      assert steps[..0] == [] && steps[1..] == [];
    } else {
      LastStep(Apply(s, steps[0]), steps[1..]);
      assert steps[..n][1..] == steps[1..][..n - 1];
    }
  }

  /** The buffer that a constructor of handle h has allocated and not counted yet. */
  function Allocated(steps: seq<Step>, h: RefId): Option<Buf>
    decreases |steps|
  {
    if steps == [] then None
    else
      var before := steps[..|steps| - 1];
      match steps[|steps| - 1]
      case Alloc(x, b) => if x == h then Some(b) else Allocated(before, h)
      case Construct(x) => if x == h then None else Allocated(before, h)
      case _ => Allocated(before, h)
  }

  function As(origin: Option<Ref>, token: bool): Option<Ref> {
    match origin
    case None => None
    case Some(ref) => Some(if token then Token(ref.buf) else Handle(ref.buf))
  }

  /** What the reference r is and leads to, traced back through the schedule to the allocation of the
      first handle: a copy, a token and the target of an assignment lead where their source did. */
  function Traced(steps: seq<Step>, r: RefId): Option<Ref>
    decreases |steps|
  {
    if steps == [] then None
    else
      var before := steps[..|steps| - 1];
      match steps[|steps| - 1]
      case Construct(h) =>
        if h != r then Traced(before, r)
        else (match Allocated(before, h) case None => None case Some(b) => Some(Handle(b)))
      case Copy(h, src) => if h == r then As(Traced(before, src), false) else Traced(before, r)
      case MakeToken(x, h) => if x == r then As(Traced(before, h), true) else Traced(before, r)
      case Adopt(x) => if x == r then As(Traced(before, x), false) else Traced(before, r)
      case Assign(h, src) => if h == r then As(Traced(before, src), false) else Traced(before, r)
      case Destroy(x) => if x == r then None else Traced(before, r)
      case _ => Traced(before, r)
  }

  function Lookup<V>(m: map<RefId, V>, r: RefId): Option<V> {
    if r in m then Some(m[r]) else None
  }

  /** How often the schedule overwrites a handle that leads to b. */
  function Overwrites(steps: seq<Step>, b: Buf): nat
    decreases |steps|
  {
    if steps == [] then 0
    else
      var before, last := steps[..|steps| - 1], steps[|steps| - 1];
      Overwrites(before, b) + if last.Assign? && Traced(before, last.h) == Some(Handle(b)) then 1 else 0
  }

  function Allocs(steps: seq<Step>, b: Buf): nat
    decreases |steps|
  {
    if steps == [] then 0
    else
      var before, last := steps[..|steps| - 1], steps[|steps| - 1];
      Allocs(before, b) + if last.Alloc? && last.b == b then 1 else 0
  }

  function Frees(steps: seq<Step>, b: Buf): nat
    decreases |steps|
  {
    if steps == [] then 0
    else
      var before, last := steps[..|steps| - 1], steps[|steps| - 1];
      Frees(before, b) + if last == Free(b) then 1 else 0
  }

  /** Every reference is what the schedule says: it leads to the buffer at the origin of its copies. */
  lemma {:induction false} RefsAreTraced(s0: State, steps: seq<Step>, r: RefId)
    requires Init(s0) && Runs(s0, steps)
    ensures Lookup(End(s0, steps).refs, r) == Traced(steps, r)
    ensures Lookup(End(s0, steps).reserved, r) == Allocated(steps, r)
    decreases |steps|
  {
    if steps != [] {
      var before, last := steps[..|steps| - 1], steps[|steps| - 1];
      LastStep(s0, steps);
      RefsAreTraced(s0, before, r);
      match last {
        case Copy(_, src) => RefsAreTraced(s0, before, src);
        case MakeToken(_, h) => RefsAreTraced(s0, before, h);
        case Assign(_, src) => RefsAreTraced(s0, before, src);
        case _ =>
      }
    }
  }

  /** The three histories are what the schedule says: overwritten handles, Alloc calls, Free calls. */
  lemma {:induction false} HistoriesAreTraced(s0: State, steps: seq<Step>, b: Buf)
    requires Init(s0) && Runs(s0, steps) && b in s0.refcnt
    ensures Counted(End(s0, steps), b)
    ensures End(s0, steps).lost[b] == Overwrites(steps, b)
    ensures End(s0, steps).allocs[b] == Allocs(steps, b) && End(s0, steps).frees[b] == Frees(steps, b)
    decreases |steps|
  {
    if steps != [] {
      var before, last := steps[..|steps| - 1], steps[|steps| - 1];
      LastStep(s0, steps);
      HistoriesAreTraced(s0, before, b);
      if last.Assign? {
        RefsAreTraced(s0, before, last.h);
      }
    }
  }

  /** The count of a buffer, from the schedule alone: the references that lead to it, and those that
      assignments have overwritten. */
  lemma CountFollowsSchedule(s0: State, steps: seq<Step>, b: Buf)
    requires Init(s0) && Runs(s0, steps) && b in s0.refcnt
    ensures b in End(s0, steps).refcnt
    ensures End(s0, steps).refcnt[b] == |RefsTo(End(s0, steps).refs, b)| + Overwrites(steps, b)
    ensures forall r :: r in RefsTo(End(s0, steps).refs, b) <==> Traced(steps, r) in {Some(Handle(b)), Some(Token(b))}
    ensures b in End(s0, steps).pool <==> Allocs(steps, b) == Frees(steps, b)
  {
    var s := End(s0, steps);
    HistoriesAreTraced(s0, steps, b);
    assert Reachable(s);
    CountIsReferences(s, b);
    ReturnedOnce(s, b);
    forall r ensures r in RefsTo(s.refs, b) <==> Traced(steps, r) in {Some(Handle(b)), Some(Token(b))} {
      RefsAreTraced(s0, steps, r);
    }
  }

  // ----- A leak -----

  lemma {:induction false} RunsSnoc(s: State, steps: seq<Step>, last: Step)
    requires Runs(s, steps) && Enabled(End(s, steps), last)
    ensures Runs(s, steps + [last]) && End(s, steps + [last]) == Apply(End(s, steps), last)
    decreases |steps|
  {
    if steps == [] {
      assert Runs(Apply(s, last), []);
      assert [last][1..] == [];
    } else {
      RunsSnoc(Apply(s, steps[0]), steps[1..], last);
      assert (steps + [last])[1..] == steps[1..] + [last];
    }
  }

  lemma Walk(s: State, step: Step) returns (s': State)
    requires Reachable(s) && Enabled(s, step)
    ensures Reachable(s') && s' == Apply(s, step)
  {
    var s0: State, steps: seq<Step> :| Init(s0) && Runs(s0, steps) && End(s0, steps) == s;
    RunsSnoc(s0, steps, step);
    s' := Apply(s, step);
  }

  lemma PutAndRemove(m: map<RefId, Buf>, h: RefId, b: Buf)
    requires h !in m
    ensures m[h := b] - {h} == m
  {
  }

  lemma AllocThenConstruct(s: State, h: RefId, b: Buf)
    requires Enabled(s, Alloc(h, b))
    ensures var s1 := Apply(s, Alloc(h, b));
      && Enabled(s1, Construct(h))
      && Apply(s1, Construct(h))
         == s.(pool := s.pool - {b}, refs := s.refs[h := Handle(b)], refcnt := s.refcnt[b := s.refcnt[b] + 1],
               allocs := s.allocs[b := s.allocs[b] + 1])
  {
    PutAndRemove(s.reserved, h, b);
  }

  /** A default constructor: a buffer from the pool, counted once. */
  lemma NewHandle(s: State, h: RefId, b: Buf) returns (s': State)
    requires Reachable(s) && Unused(s, h) && b in s.pool && Counted(s, b)
    ensures Reachable(s')
    ensures s' == s.(pool := s.pool - {b}, refs := s.refs[h := Handle(b)], refcnt := s.refcnt[b := s.refcnt[b] + 1],
                     allocs := s.allocs[b := s.allocs[b] + 1])
  {
    AllocThenConstruct(s, h, b);
    var s1 := Walk(s, Alloc(h, b));
    s' := Walk(s1, Construct(h));
  }

  /** Two handles with a buffer each. */
  lemma TwoHandles() returns (s: State)
    ensures Reachable(s) && s.refs.Keys == {0, 1} && s.refs[0] == Handle(0) && s.refs[1] == Handle(1)
    ensures s.reserved == map[] && s.dying == {} && s.pool == {}
    ensures s.refcnt.Keys == {0, 1} && s.refcnt[0] == 1 == s.refcnt[1] && Counted(s, 0) && Counted(s, 1)
  {
    var zero := map[0 := 0, 1 := 0];
    var s0 := State(map[0 := 0, 1 := 0], map[], {0, 1}, map[], {}, zero, zero, zero);
    assert Runs(s0, []) && End(s0, []) == s0;
    var s1 := NewHandle(s0, 0, 0);
    s := NewHandle(s1, 1, 1);
  }

  /** The second handle is assigned to the first, which is then destroyed. */
  lemma AssignAndDestroy() returns (s: State)
    ensures Reachable(s) && s.refs.Keys == {1} && s.refs[1] == Handle(1)
    ensures s.reserved == map[] && s.dying == {} && s.pool == {}
    ensures s.refcnt.Keys == {0, 1} && s.refcnt[1] == 1 && Counted(s, 1)
  {
    var s1 := TwoHandles();
    var s2 := Walk(s1, Assign(0, 1));
    s := Walk(s2, Destroy(0));
  }

  /** One assignment between two handles, then both are destroyed: the first handle's buffer never
      goes back to the pool. */
  lemma AssignmentLeaks() returns (s: State)
    ensures Reachable(s) && s.refs == map[] && s.reserved == map[] && s.dying == {}
    ensures s.refcnt.Keys == {0, 1} && s.pool == {1}
  {
    var s1 := AssignAndDestroy();
    var s2 := Walk(s1, Destroy(1));
    s := Walk(s2, Free(1));
    assert s.refs == map[];
  }
}
