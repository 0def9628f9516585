/** The inductive invariant of the CAS queue and its preservation by every step. */
module QueueInvariant {
  import opened Counting
  import opened LockFreeQueue
  import Bits
  import opened Wrappers

  // ----- Classes of program counters -----

  /** The node a thread owns privately. */
  function Holds(pc: Pc): Option<Addr> {
    match pc
    case WriteData(a, _) => Some(a)
    case WriteNull(a, _) => Some(a)
    case ReadTail(a, _, _) => Some(a)
    case SwingTail(a, _, _, _) => Some(a)
    case Release(a, _) => Some(a)
    case _ => None
  }

  /** An enqueuer whose tail swap is done but not yet counted in `_size`. */
  predicate Uncounted(pc: Pc) {
    pc.LinkPrev? || pc.CountUp?
  }

  /** A dequeuer that won a reservation and has not swapped the head yet. */
  predicate Reserved(pc: Pc) {
    pc.FindTail? || pc.TailNext? || pc.HelpRead? || pc.HelpSwing? || pc.FindHead? || pc.HeadNext?
    || pc.ReadData? || pc.SwingHead?
  }

  /** A queued node is promised to, or not yet announced by, such a thread. */
  predicate Claims(pc: Pc) {
    Uncounted(pc) || Reserved(pc)
  }

  predicate Undoing(pc: Pc) {
    pc.Undo?
  }

  /** Threads that may still raise `_size` or hold it down: past the size test of Enqueue and
      not yet counted, or holding a reservation. */
  predicate Busy(pc: Pc) {
    Claims(pc) || pc.NeedNode? || pc.WriteData? || pc.WriteNull? || pc.ReadTail? || pc.SwingTail?
  }

  // ----- Positions -----

  /** Number of won head swaps: the position of the head in tail-swap order. */
  function First(s: State): nat {
    |s.taken|
  }

  /** Number of won tail swaps: the position of the tail. */
  function Last(s: State): int {
    |s.chain| - 1
  }

  // ----- Invariant -----

  ghost predicate Shape(s: State) {
    && s.bits == None && First(s) <= Last(s)
    && (forall i :: 0 <= i < |s.chain| ==> s.chain[i].ptr.Tagged?)
    && s.head == s.chain[First(s)].ptr
    && s.tail == s.chain[Last(s)].ptr
    && s.chain[Last(s)].linker == None
  }

  ghost predicate TagsGrow(s: State)
    requires Shape(s)
  {
    forall i, j :: 0 <= i < j < |s.chain| ==> s.chain[i].ptr.tag < s.chain[j].ptr.tag
  }

  /** The node at position i is in the chain there and nowhere else, and keeps its data. */
  ghost predicate LiveAt(s: State, i: int)
    requires Shape(s) && First(s) <= i <= Last(s)
  {
    var a := s.chain[i].ptr.adr;
    && a in s.mem
    && s.mem[a].owner == InChain(i)
    && (First(s) < i ==> s.mem[a].data == s.chain[i].data)
  }

  ghost predicate Live(s: State)
    requires Shape(s)
  {
    forall i {:trigger LiveAt(s, i)} :: First(s) <= i <= Last(s) ==> LiveAt(s, i)
  }

  /** The link from position i: set, or null with the enqueuer that will set it still at its
      link CAS. */
  ghost predicate LinkAt(s: State, i: int)
    requires Shape(s) && First(s) <= i < Last(s)
  {
    var e := s.chain[i];
    && e.ptr.adr in s.mem
    && match e.linker
       case None => s.mem[e.ptr.adr].next == s.chain[i + 1].ptr
       case Some(t) =>
         && s.mem[e.ptr.adr].next == Null
         && t in s.thr && s.thr[t].LinkPrev? && s.thr[t].slot == i
  }

  ghost predicate Links(s: State)
    requires Shape(s)
  {
    && (forall i {:trigger LinkAt(s, i)} :: First(s) <= i < Last(s) ==> LinkAt(s, i))
    && s.tail.adr in s.mem
    && s.mem[s.tail.adr].next == Null
  }

  ghost predicate TakenAt(s: State, i: int)
    requires Shape(s) && 0 <= i < First(s)
  {
    s.taken[i] == s.chain[i + 1].data
  }

  ghost predicate History(s: State)
    requires Shape(s)
  {
    forall i {:trigger TakenAt(s, i)} :: 0 <= i < First(s) ==> TakenAt(s, i)
  }

  /** Every node is in the pool, in the chain at one place, or held by one thread. */
  ghost predicate Owned(s: State, a: Addr)
    requires Shape(s) && a in s.mem
  {
    && Safe(s.mem, s.mem[a].next)
    && match s.mem[a].owner
       case InPool => true
       case InChain(k) => First(s) <= k <= Last(s) && s.chain[k].ptr.adr == a
       case HeldBy(t) => t in s.thr && Holds(s.thr[t]) == Some(a)
  }

  ghost predicate Owners(s: State)
    requires Shape(s)
  {
    forall a {:trigger Owned(s, a)} :: a in s.mem ==> Owned(s, a)
  }

  predicate Mine(s: State, t: Tid, a: Addr) {
    a in s.mem && s.mem[a].owner == HeldBy(t)
  }

  /** p was the value of a shared pointer whose current value is q: older, or the same. */
  predicate UpTo(s: State, p: Ptr, q: Ptr) {
    && p.Tagged? && q.Tagged? && p.adr in s.mem
    && p.tag <= q.tag && (p.tag == q.tag ==> p == q)
  }

  predicate Before(s: State, p: Ptr, q: Ptr) {
    p.Tagged? && q.Tagged? && p.adr in s.mem && p.tag < q.tag
  }

  /** What a dequeuer knows of the successor it read: right as long as the head is the one
      it read, whatever has been freed and reused meanwhile. */
  ghost predicate SuccessorRead(s: State, seen: Ptr, succ: Ptr)
    requires Shape(s)
  {
    && UpTo(s, seen, s.head)
    && succ.Tagged? && succ.adr in s.mem
    && (seen == s.head ==>
          && First(s) < Last(s)
          && succ == s.chain[First(s) + 1].ptr
          && s.chain[First(s)].linker == None)
  }

  ghost predicate LocalOk(s: State, t: Tid, pc: Pc)
    requires Shape(s)
  {
    match pc
    case WriteData(a, d) => Mine(s, t, a)
    case WriteNull(a, d) => Mine(s, t, a) && s.mem[a].data == d
    case ReadTail(a, d, acc) => Mine(s, t, a) && s.mem[a].data == d && s.mem[a].next == Null
    case SwingTail(a, d, acc, seen) =>
      && Mine(s, t, a) && s.mem[a].data == d && s.mem[a].next == Null
      && UpTo(s, seen, s.tail) && seen.tag < acc
    case LinkPrev(a, d, acc, seen, slot) =>
      && First(s) <= slot < Last(s)
      && s.chain[slot].ptr == seen && s.chain[slot].linker == Some(t)
      && s.chain[slot + 1].ptr == Tagged(a, acc)
    case TailNext(seen) => UpTo(s, seen, s.tail)
    case HelpRead(seen) => Before(s, seen, s.tail)
    case HelpSwing(seen, next) => Before(s, seen, s.tail)
    case HeadNext(seen) => UpTo(s, seen, s.head)
    case ReadData(seen, succ) => SuccessorRead(s, seen, succ)
    case SwingHead(seen, succ, d) =>
      && SuccessorRead(s, seen, succ)
      && (seen == s.head ==> d == s.chain[First(s) + 1].data)
    case Release(a, d) => Mine(s, t, a)
    case _ => true
  }

  ghost predicate Locals(s: State)
    requires Shape(s)
  {
    forall t {:trigger s.thr[t]} :: t in s.thr ==> LocalOk(s, t, s.thr[t])
  }

  /** What the size test of MAXLFQueue leaves possible. */
  ghost function Bound(s: State): int
    requires s.limit.Some?
  {
    var b := s.limit.value - 1 + |s.thr|;
    if b >= 0 then b else 0
  }

  ghost predicate Accounts(s: State) {
    && s.size + Count(s.thr, Undoing) >= 0
    && Last(s) - First(s) == s.size + Count(s.thr, Undoing) + Count(s.thr, Claims)
    && (s.limit.Some? ==> s.size + Count(s.thr, Undoing) + Count(s.thr, Busy) <= Bound(s))
  }

  /** Everything about memory: the chain, who owns which node, what every thread knows. */
  ghost predicate Structure(s: State) {
    Shape(s) && TagsGrow(s) && Live(s) && Links(s) && History(s) && Owners(s)
  }

  ghost predicate Core(s: State) {
    Structure(s) && Locals(s)
  }

  ghost predicate Inv(s: State) {
    Core(s) && Accounts(s)
  }

  // ----- Preservation -----

  lemma InitInv(s: State)
    requires Init(s)
    ensures Inv(s)
  {
    CountZero(s.thr, Undoing);
    CountZero(s.thr, Claims);
    CountZero(s.thr, Busy);
    assert LiveAt(s, 0);
    forall a | a in s.mem ensures Owned(s, a) {
    }
  }

  lemma QuietLocals(s: State, size: int, t: Tid, pc: Pc)
    requires Shape(s) && Locals(s) && LocalOk(s, t, pc)
    ensures Locals(Goto(s.(size := size), t, pc))
  {
    var s' := Goto(s.(size := size), t, pc);
    forall u | u in s'.thr ensures LocalOk(s', u, s'.thr[u]) {
      if u != t {
        assert LocalOk(s, u, s.thr[u]);
      }
    }
  }

  /** Everything but the accounting survives a step that only moves one thread and `_size`. */
  lemma QuietFrame(s: State, size: int, t: Tid, pc: Pc)
    requires Core(s) && t in s.thr
    requires !s.thr[t].LinkPrev? && !pc.LinkPrev?
    requires Holds(pc) == Holds(s.thr[t]) && LocalOk(s, t, pc)
    ensures Core(Goto(s.(size := size), t, pc))
  {
    var s' := Goto(s.(size := size), t, pc);
    forall i | First(s) <= i <= Last(s) ensures LiveAt(s', i) {
      assert LiveAt(s, i);
    }
    forall i | First(s) <= i < Last(s) ensures LinkAt(s', i) {
      assert LinkAt(s, i);
    }
    forall i | 0 <= i < First(s) ensures TakenAt(s', i) {
      assert TakenAt(s, i);
    }
    forall a | a in s.mem ensures Owned(s', a) {
      assert Owned(s, a);
    }
    QuietLocals(s, size, t, pc);
  }

  ghost function HeldCell(c: Cell, t: Tid, a: Addr): Option<Addr> {
    if c.owner == HeldBy(t) then Some(a) else None
  }

  /** A thread rewrites a node that the pool or the thread itself owns. */
  lemma OwnCellCore(s: State, a: Addr, c: Cell, t: Tid, pc: Pc)
    requires Core(s) && t in s.thr && a in s.mem
    requires s.mem[a].owner == InPool || s.mem[a].owner == HeldBy(t)
    requires c.owner == InPool || c.owner == HeldBy(t)
    requires Safe(s.mem, c.next)
    requires Holds(s.thr[t]) == HeldCell(s.mem[a], t, a) && Holds(pc) == HeldCell(c, t, a)
    requires !s.thr[t].LinkPrev? && !pc.LinkPrev?
    requires var s' := Goto(Put(s, a, c), t, pc); Shape(s') && LocalOk(s', t, pc)
    ensures Core(Goto(Put(s, a, c), t, pc))
  {
    var s' := Goto(Put(s, a, c), t, pc);
    forall i | First(s) <= i <= Last(s) ensures LiveAt(s', i) {
      assert LiveAt(s, i);
    }
    forall i | First(s) <= i < Last(s) ensures LinkAt(s', i) {
      assert LinkAt(s, i);
      assert LiveAt(s, i);
    }
    assert LiveAt(s, Last(s));
    forall i | 0 <= i < First(s) ensures TakenAt(s', i) {
      assert TakenAt(s, i);
    }
    forall b | b in s'.mem ensures Owned(s', b) {
      assert Owned(s, b);
    }
    OwnCellLocals(s, a, c, t, pc);
  }

  lemma OwnCellLocals(s: State, a: Addr, c: Cell, t: Tid, pc: Pc)
    requires Shape(s) && Locals(s) && t in s.thr && a in s.mem
    requires s.mem[a].owner == InPool || s.mem[a].owner == HeldBy(t)
    requires var s' := Goto(Put(s, a, c), t, pc); Shape(s') && LocalOk(s', t, pc)
    ensures Locals(Goto(Put(s, a, c), t, pc))
  {
    var s' := Goto(Put(s, a, c), t, pc);
    forall u | u in s'.thr ensures LocalOk(s', u, s'.thr[u]) {
      if u != t {
        assert LocalOk(s, u, s.thr[u]);
      }
    }
  }

  /** The environment rewrites a node of the pool, or maps a new one. */
  lemma PoolCellCore(s: State, a: Addr, c: Cell)
    requires Core(s) && c.owner == InPool && Safe(s.mem, c.next)
    requires a in s.mem ==> s.mem[a].owner == InPool
    ensures Core(Put(s, a, c))
  {
    var s' := Put(s, a, c);
    forall i | First(s) <= i <= Last(s) ensures LiveAt(s', i) {
      assert LiveAt(s, i);
    }
    forall i | First(s) <= i < Last(s) ensures LinkAt(s', i) {
      assert LinkAt(s, i);
      assert LiveAt(s, i);
    }
    assert LiveAt(s, Last(s));
    forall i | 0 <= i < First(s) ensures TakenAt(s', i) {
      assert TakenAt(s, i);
    }
    forall b | b in s'.mem ensures Owned(s', b) {
      if b in s.mem {
        assert Owned(s, b);
      }
    }
    PoolCellLocals(s, a, c);
  }

  lemma PoolCellLocals(s: State, a: Addr, c: Cell)
    requires Shape(s) && Locals(s) && c.owner == InPool
    requires a in s.mem ==> s.mem[a].owner == InPool
    ensures Shape(Put(s, a, c)) && Locals(Put(s, a, c))
  {
    var s' := Put(s, a, c);
    forall u | u in s'.thr ensures LocalOk(s', u, s'.thr[u]) {
      assert LocalOk(s, u, s.thr[u]);
    }
  }

  lemma SpawnCore(s: State, t: Tid)
    requires Core(s) && t !in s.thr
    ensures Core(Goto(s, t, Idle))
  {
    var s' := Goto(s, t, Idle);
    forall i | First(s) <= i <= Last(s) ensures LiveAt(s', i) {
      assert LiveAt(s, i);
    }
    forall i | First(s) <= i < Last(s) ensures LinkAt(s', i) {
      assert LinkAt(s, i);
    }
    forall i | 0 <= i < First(s) ensures TakenAt(s', i) {
      assert TakenAt(s, i);
    }
    forall a | a in s.mem ensures Owned(s', a) {
      assert Owned(s, a);
    }
    forall u | u in s'.thr ensures LocalOk(s', u, s'.thr[u]) {
      if u != t {
        assert LocalOk(s, u, s.thr[u]);
      }
    }
  }

  /** The state after a won tail swap of thread t. */
  ghost function AfterTail(s: State, t: Tid): State
    requires t in s.thr && s.thr[t].SwingTail? && s.thr[t].a in s.mem
  {
    var pc := s.thr[t];
    WinTail(s, t, pc.a, pc.d, pc.acc, pc.seen)
  }

  ghost predicate CanWinTail(s: State, t: Tid) {
    && t in s.thr && s.thr[t].SwingTail? && s.thr[t].a in s.mem
    && Shape(s) && LocalOk(s, t, s.thr[t]) && s.tail == s.thr[t].seen
  }

  lemma WinTailChain(s: State, t: Tid)
    requires Structure(s) && CanWinTail(s, t)
    ensures Shape(AfterTail(s, t)) && TagsGrow(AfterTail(s, t))
    ensures var s' := AfterTail(s, t);
      && |s'.chain| == |s.chain| + 1
      && (forall i :: 0 <= i < |s.chain| ==> s'.chain[i].ptr == s.chain[i].ptr && s'.chain[i].data == s.chain[i].data)
      && (forall i :: 0 <= i < |s.chain| - 1 ==> s'.chain[i] == s.chain[i])
      && s'.chain[|s.chain| - 1].linker == Some(t)
      && s'.chain[|s.chain|] == Entry(Tagged(s.thr[t].a, s.thr[t].acc), s.thr[t].d, None)
  {
  }

  /** A won tail swap appends the node: it leaves its owner, closes no link yet, and its tag
      exceeds every earlier one. */
  lemma WinTailStructure(s: State, t: Tid)
    requires Structure(s) && CanWinTail(s, t)
    ensures Structure(AfterTail(s, t))
  {
    var s' := AfterTail(s, t);
    var n := |s.chain|;
    WinTailChain(s, t);
    forall i | First(s') <= i <= Last(s') ensures LiveAt(s', i) {
      if i < n {
        assert LiveAt(s, i);
      }
    }
    forall i | First(s') <= i < Last(s') ensures LinkAt(s', i) {
      assert LiveAt(s, i);
      if i < n - 1 {
        assert LinkAt(s, i);
      }
    }
    forall i | 0 <= i < First(s') ensures TakenAt(s', i) {
      assert TakenAt(s, i);
    }
    forall a | a in s'.mem ensures Owned(s', a) {
      assert Owned(s, a);
    }
  }

  lemma WinTailLocals(s: State, t: Tid)
    requires Structure(s) && Locals(s) && CanWinTail(s, t)
    ensures Shape(AfterTail(s, t)) && Locals(AfterTail(s, t))
  {
    var s' := AfterTail(s, t);
    WinTailChain(s, t);
    forall u | u in s'.thr ensures LocalOk(s', u, s'.thr[u]) {
      if u != t {
        assert LocalOk(s, u, s.thr[u]);
      }
    }
  }

  lemma WinTailCore(s: State, t: Tid)
    requires Core(s) && CanWinTail(s, t)
    ensures Core(AfterTail(s, t))
  {
    WinTailStructure(s, t);
    WinTailLocals(s, t);
  }

  ghost predicate CanWinLink(s: State, t: Tid) {
    t in s.thr && s.thr[t].LinkPrev? && s.thr[t].seen.Tagged? && s.thr[t].seen.adr in s.mem
  }

  ghost function AfterLink(s: State, t: Tid): State
    requires CanWinLink(s, t)
  {
    var pc := s.thr[t];
    WinLink(s, t, Tagged(pc.a, pc.acc), pc.seen, pc.slot)
  }

  /** The link CAS always finds null. */
  lemma LinkFindsNull(s: State, t: Tid)
    requires Core(s) && t in s.thr && s.thr[t].LinkPrev?
    ensures var seen := s.thr[t].seen; seen.Tagged? && seen.adr in s.mem && s.mem[seen.adr].next == Null
  {
    assert LocalOk(s, t, s.thr[t]);
    assert LinkAt(s, s.thr[t].slot);
  }

  lemma WinLinkShape(s: State, t: Tid)
    requires Core(s) && CanWinLink(s, t)
    ensures Shape(AfterLink(s, t)) && TagsGrow(AfterLink(s, t))
    ensures First(s) <= s.thr[t].slot < Last(s) && s.chain[s.thr[t].slot].ptr == s.thr[t].seen
  {
    assert LocalOk(s, t, s.thr[t]);
  }

  lemma WinLinkLinks(s: State, t: Tid)
    requires Core(s) && CanWinLink(s, t) && Shape(AfterLink(s, t))
    ensures Links(AfterLink(s, t))
  {
    var s' := AfterLink(s, t);
    var pc := s.thr[t];
    assert LocalOk(s, t, pc);
    assert LinkAt(s, pc.slot) && LiveAt(s, pc.slot) && LiveAt(s, pc.slot + 1);
    forall i | First(s') <= i < Last(s') ensures LinkAt(s', i) {
      assert LinkAt(s, i) && LiveAt(s, i);
    }
    assert LiveAt(s, Last(s));
  }

  lemma WinLinkStructure(s: State, t: Tid)
    requires Core(s) && CanWinLink(s, t)
    ensures Structure(AfterLink(s, t))
  {
    var s' := AfterLink(s, t);
    WinLinkShape(s, t);
    WinLinkLinks(s, t);
    assert LiveAt(s, s.thr[t].slot) && LiveAt(s, s.thr[t].slot + 1);
    forall i | First(s') <= i <= Last(s') ensures LiveAt(s', i) {
      assert LiveAt(s, i);
    }
    forall i | 0 <= i < First(s') ensures TakenAt(s', i) {
      assert TakenAt(s, i);
    }
    forall a | a in s'.mem ensures Owned(s', a) {
      assert Owned(s, a);
    }
  }

  lemma WinLinkLocals(s: State, t: Tid)
    requires Core(s) && CanWinLink(s, t)
    ensures Shape(AfterLink(s, t)) && Locals(AfterLink(s, t))
  {
    var s' := AfterLink(s, t);
    var pc := s.thr[t];
    assert LocalOk(s, t, pc);
    assert LiveAt(s, pc.slot);
    forall u | u in s'.thr ensures LocalOk(s', u, s'.thr[u]) {
      if u != t {
        assert LocalOk(s, u, s.thr[u]);
      }
    }
  }

  lemma WinLinkCore(s: State, t: Tid)
    requires Core(s) && CanWinLink(s, t)
    ensures Core(AfterLink(s, t))
  {
    WinLinkStructure(s, t);
    WinLinkLocals(s, t);
  }

  ghost function AfterHead(s: State, t: Tid): State
    requires t in s.thr && s.thr[t].SwingHead? && s.thr[t].seen.Tagged? && s.thr[t].seen.adr in s.mem
  {
    var pc := s.thr[t];
    WinHead(s, t, pc.seen, pc.succ, pc.d)
  }

  ghost predicate CanWinHead(s: State, t: Tid) {
    && t in s.thr && s.thr[t].SwingHead? && s.head == s.thr[t].seen
    && s.thr[t].seen.Tagged? && s.thr[t].seen.adr in s.mem
  }

  /** A won head swap takes the oldest queued node: its data is returned, the node becomes
      the dummy and the old dummy belongs to the winner alone. */
  lemma WinHeadStructure(s: State, t: Tid)
    requires Core(s) && CanWinHead(s, t)
    ensures Structure(AfterHead(s, t))
  {
    assert LocalOk(s, t, s.thr[t]);
    var s' := AfterHead(s, t);
    var c := First(s);
    assert LiveAt(s, c) && LinkAt(s, c);
    forall i | First(s') <= i <= Last(s') ensures LiveAt(s', i) {
      assert LiveAt(s, i);
    }
    forall i | First(s') <= i < Last(s') ensures LinkAt(s', i) {
      assert LinkAt(s, i) && LiveAt(s, i);
    }
    assert LiveAt(s, Last(s));
    forall i | 0 <= i < First(s') ensures TakenAt(s', i) {
      if i < c {
        assert TakenAt(s, i);
      }
    }
    forall a | a in s'.mem ensures Owned(s', a) {
      assert Owned(s, a);
    }
  }

  lemma WinHeadLocals(s: State, t: Tid)
    requires Core(s) && CanWinHead(s, t)
    ensures Shape(AfterHead(s, t)) && Locals(AfterHead(s, t))
  {
    assert LocalOk(s, t, s.thr[t]);
    var s' := AfterHead(s, t);
    assert LiveAt(s, First(s));
    forall u | u in s'.thr ensures LocalOk(s', u, s'.thr[u]) {
      if u != t {
        assert LocalOk(s, u, s.thr[u]);
      }
    }
  }

  lemma WinHeadCore(s: State, t: Tid)
    requires Core(s) && CanWinHead(s, t)
    ensures Core(AfterHead(s, t))
  {
    WinHeadStructure(s, t);
    WinHeadLocals(s, t);
  }

  // ----- Every step -----

  lemma StartCore(s: State, t: Tid, pc: Pc)
    requires Core(s) && t in s.thr && s.thr[t] == Idle
    requires pc.CheckSize? || pc.Reserve? || pc.NeedNode?
    ensures Core(Goto(s, t, pc))
  {
    assert s.(size := s.size) == s;
    QuietFrame(s, s.size, t, pc);
  }

  lemma AllocateCore(s: State, t: Tid, a: Addr)
    requires Core(s) && Enabled(s, Allocate(t, a))
    ensures Core(Apply(s, Allocate(t, a)))
  {
    var pc := WriteData(a, s.thr[t].d);
    assert Owned(s, a);
    OwnCellCore(s, a, s.mem[a].(owner := HeldBy(t)), t, pc);
  }

  lemma WriteCore(s: State, t: Tid)
    requires Core(s) && Enabled(s, Advance(t)) && (s.thr[t].WriteData? || s.thr[t].WriteNull? || s.thr[t].Release?)
    ensures Core(Move(s, t))
  {
    var s' := Move(s, t);
    var a := s.thr[t].a;
    assert LocalOk(s, t, s.thr[t]);
    assert Owned(s, a);
    OwnCellCore(s, a, s'.mem[a], t, s'.thr[t]);
  }

  /** The three Interlocked steps on `_size`. */
  lemma SizeCore(s: State, t: Tid)
    requires Core(s) && Enabled(s, Advance(t))
    requires s.thr[t].CountUp? || s.thr[t].Reserve? || s.thr[t].Undo?
    ensures Core(Move(s, t))
  {
    var s' := Move(s, t);
    QuietFrame(s, s'.size, t, s'.thr[t]);
  }

  /** Reading a shared pointer, and losing a swap. */
  lemma QuietCore(s: State, t: Tid)
    requires Core(s) && Enabled(s, Advance(t))
    requires var pc := s.thr[t];
      || pc.FindTail? || pc.FindHead? || pc.ReadTail?
      || (pc.SwingTail? && s.tail != pc.seen) || (pc.SwingHead? && s.head != pc.seen)
    ensures Core(Move(s, t))
  {
    var pc := Move(s, t).thr[t];
    assert LocalOk(s, t, s.thr[t]);
    assert LiveAt(s, First(s)) && LiveAt(s, Last(s));
    if s.thr[t].ReadTail? {
      Bits.OrAtLeast(s.thr[t].acc, NextTag(s));
    }
    assert LocalOk(s, t, pc);
    assert s.(size := s.size) == s;
    QuietFrame(s, s.size, t, pc);
  }

  /** The reads through pointers that may be stale. */
  lemma ReadCore(s: State, t: Tid)
    requires Core(s) && Enabled(s, Advance(t))
    requires var pc := s.thr[t]; pc.TailNext? || pc.HelpRead? || pc.HelpSwing? || pc.HeadNext? || pc.ReadData?
    ensures Core(Move(s, t))
  {
    var s' := Move(s, t);
    assert LocalOk(s, t, s.thr[t]);
    if s.thr[t].HeadNext? {
      assert Owned(s, s.thr[t].seen.adr);
      if First(s) < Last(s) {
        assert LinkAt(s, First(s));
      }
    } else if s.thr[t].ReadData? && First(s) < Last(s) {
      assert LiveAt(s, First(s) + 1);
    }
    assert s.(size := s.size) == s;
    QuietFrame(s, s.size, t, s'.thr[t]);
  }

  lemma MoveCore(s: State, t: Tid)
    requires Core(s) && Enabled(s, Advance(t))
    ensures Core(Move(s, t))
  {
    var pc := s.thr[t];
    match pc {
      case CheckSize(_) =>
        assert s.(size := s.size) == s;
        QuietFrame(s, s.size, t, Move(s, t).thr[t]);
      case WriteData(_, _) => WriteCore(s, t);
      case WriteNull(_, _) => WriteCore(s, t);
      case Release(_, _) => WriteCore(s, t);
      case SwingTail(_, _, _, seen) =>
        assert LocalOk(s, t, pc);
        if s.tail == seen {
          WinTailCore(s, t);
        } else {
          QuietCore(s, t);
        }
      case LinkPrev(_, _, _, _, _) =>
        LinkFindsNull(s, t);
        WinLinkCore(s, t);
      case SwingHead(seen, _, _) =>
        if s.head == seen {
          WinHeadCore(s, t);
        } else {
          QuietCore(s, t);
        }
      case TailNext(_) => ReadCore(s, t);
      case HelpRead(_) => ReadCore(s, t);
      case HelpSwing(_, _) => ReadCore(s, t);
      case HeadNext(_) => ReadCore(s, t);
      case ReadData(_, _) => ReadCore(s, t);
      case CountUp => SizeCore(s, t);
      case Reserve => SizeCore(s, t);
      case Undo => SizeCore(s, t);
      case _ => QuietCore(s, t);
    }
  }

  lemma StepCore(s: State, step: Step)
    requires Core(s) && Enabled(s, step)
    ensures Core(Apply(s, step))
  {
    match step {
      case Spawn(t) => SpawnCore(s, t);
      case StartEnqueue(t, d) => StartCore(s, t, Apply(s, step).thr[t]);
      case StartDequeue(t) => StartCore(s, t, Reserve);
      case Allocate(t, a) => AllocateCore(s, t, a);
      case Advance(t) => MoveCore(s, t);
      case Carve(a, data, next) => PoolCellCore(s, a, Cell(data, next, InPool));
      case Scribble(a, data, next) => PoolCellCore(s, a, Cell(data, next, InPool));
    }
  }

  // ----- Accounting -----

  /** How one thread moving from pc to pc' changes the three counts. */
  lemma CountsMove(s: State, t: Tid, pc: Pc)
    requires t in s.thr
    ensures Count(s.thr[t := pc], Undoing) == Count(s.thr, Undoing) - Bit(Undoing(s.thr[t])) + Bit(Undoing(pc))
    ensures Count(s.thr[t := pc], Claims) == Count(s.thr, Claims) - Bit(Claims(s.thr[t])) + Bit(Claims(pc))
    ensures Count(s.thr[t := pc], Busy) == Count(s.thr, Busy) - Bit(Busy(s.thr[t])) + Bit(Busy(pc))
    ensures |s.thr[t := pc]| == |s.thr|
  {
    CountUpdate(s.thr, t, pc, Undoing);
    CountUpdate(s.thr, t, pc, Claims);
    CountUpdate(s.thr, t, pc, Busy);
    assert s.thr[t := pc].Keys == s.thr.Keys;
    assert |s.thr[t := pc].Keys| == |s.thr[t := pc]|;
  }

  lemma SpawnAccounts(s: State, t: Tid)
    requires Accounts(s) && t !in s.thr
    ensures Accounts(Goto(s, t, Idle))
  {
    var s' := Goto(s, t, Idle);
    CountSpawn(s.thr, t, Idle, Undoing);
    CountSpawn(s.thr, t, Idle, Claims);
    CountSpawn(s.thr, t, Idle, Busy);
    assert s'.thr.Keys == s.thr.Keys + {t};
    assert |s'.thr.Keys| == |s'.thr|;
  }

  /** A step of thread t to pc books consistently: `_size`, the chain, and the classes the
      thread leaves and enters agree, and no busy thread appears out of nothing. */
  ghost predicate Books(s: State, s': State, t: Tid, pc: Pc) {
    && t in s.thr && s'.thr == s.thr[t := pc] && s'.limit == s.limit
    && var undo := s'.size - s.size + Bit(Undoing(pc)) - Bit(Undoing(s.thr[t]));
       && (undo >= 0 || s'.size >= 0)
       && (Last(s') - First(s')) - (Last(s) - First(s)) == undo + Bit(Claims(pc)) - Bit(Claims(s.thr[t]))
       && (s.limit.Some? ==> undo + Bit(Busy(pc)) - Bit(Busy(s.thr[t])) <= 0)
  }

  lemma BooksAccounts(s: State, s': State, t: Tid, pc: Pc)
    requires Accounts(s) && Books(s, s', t, pc)
    ensures Accounts(s')
  {
    CountsMove(s, t, pc);
  }

  /** The size test of MAXLFQueue: it saw `_size < _maxSize`, and the busy and undoing threads
      together are at most all threads. */
  lemma CheckSizeAccounts(s: State, t: Tid)
    requires Accounts(s) && t in s.thr && s.thr[t].CheckSize? && s.limit.Some? && s.size < s.limit.value
    ensures Accounts(Goto(s, t, NeedNode(s.thr[t].d)))
  {
    var pc := NeedNode(s.thr[t].d);
    CountsMove(s, t, pc);
    CountDisjoint(s.thr[t := pc], Undoing, Busy);
  }

  predicate Enqueuing(pc: Pc) {
    pc.CheckSize? || pc.WriteData? || pc.WriteNull? || pc.ReadTail? || pc.SwingTail? || pc.LinkPrev? || pc.CountUp?
  }

  lemma EnqueueBooks(s: State, t: Tid)
    requires |s.chain| > 0 && Enabled(s, Advance(t)) && Enqueuing(s.thr[t])
    requires !(s.thr[t].CheckSize? && Move(s, t).thr[t].NeedNode?)
    requires s.thr[t].LinkPrev? ==> s.mem[s.thr[t].seen.adr].next == Null
    ensures Books(s, Move(s, t), t, Move(s, t).thr[t])
  {
    var s' := Move(s, t);
    var pc := s'.thr[t];
    assert s'.thr == s.thr[t := pc];
    assert !Undoing(pc) && !Undoing(s.thr[t]) && !Reserved(pc) && !Reserved(s.thr[t]);
  }

  lemma DequeueBooks(s: State, t: Tid)
    requires |s.chain| > 0 && Enabled(s, Advance(t)) && !Enqueuing(s.thr[t])
    ensures Books(s, Move(s, t), t, Move(s, t).thr[t])
  {
    var s' := Move(s, t);
    var pc := s'.thr[t];
    assert s'.thr == s.thr[t := pc];
    assert Claims(pc) == Busy(pc) == Reserved(pc) && Claims(s.thr[t]) == Busy(s.thr[t]) == Reserved(s.thr[t]);
  }

  lemma MoveAccounts(s: State, t: Tid)
    requires Inv(s) && Enabled(s, Advance(t))
    ensures Accounts(Move(s, t))
  {
    var s' := Move(s, t);
    if s.thr[t].CheckSize? && s'.thr[t].NeedNode? {
      if s.limit.Some? {
        CheckSizeAccounts(s, t);
      } else {
        BooksAccounts(s, s', t, s'.thr[t]);
      }
    } else {
      if s.thr[t].LinkPrev? {
        LinkFindsNull(s, t);
      }
      if Enqueuing(s.thr[t]) {
        EnqueueBooks(s, t);
      } else {
        DequeueBooks(s, t);
      }
      BooksAccounts(s, s', t, s'.thr[t]);
    }
  }

  lemma StartBooks(s: State, step: Step)
    requires Enabled(s, step) && (step.StartEnqueue? || step.StartDequeue? || step.Allocate?)
    ensures Books(s, Apply(s, step), step.t, Apply(s, step).thr[step.t])
  {
  }

  lemma OtherAccounts(s: State, step: Step)
    requires Accounts(s) && Enabled(s, step) && !step.Advance?
    ensures Accounts(Apply(s, step))
  {
    if step.Spawn? {
      SpawnAccounts(s, step.t);
    } else if step.StartEnqueue? || step.StartDequeue? || step.Allocate? {
      StartBooks(s, step);
      BooksAccounts(s, Apply(s, step), step.t, Apply(s, step).thr[step.t]);
    }
  }

  /** Every step of every thread and of the pool keeps the invariant. */
  lemma StepInv(s: State, step: Step)
    requires Inv(s) && Enabled(s, step)
    ensures Inv(Apply(s, step))
  {
    StepCore(s, step);
    if step.Advance? {
      MoveAccounts(s, step.t);
    } else {
      OtherAccounts(s, step);
    }
  }
}
