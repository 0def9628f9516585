/** Invariant and guarantees of the CAS stack. */
module StackTheorems {
  import opened Counting
  import opened LockFreeStack
  import opened Wrappers

  // ----- Classes of program counters -----

  function Holds(pc: Pc): Option<Addr> {
    match pc
    case WriteData(a, _) => Some(a)
    case TakeKey(a, _) => Some(a)
    case ReadTop(a, _, _) => Some(a)
    case WriteNext(a, _, _, _) => Some(a)
    case SwingTop(a, _, _, _) => Some(a)
    case Release(a, _) => Some(a)
    case _ => None
  }

  /** A popper that won a reservation and has not swapped the top yet. */
  predicate Reserved(pc: Pc) {
    pc.LoadTop? || pc.ReadNext? || pc.ReadData? || pc.Take?
  }

  /** Such a popper, or a pusher that has not counted its node yet. */
  predicate Claims(pc: Pc) {
    Reserved(pc) || pc.CountUp?
  }

  predicate Undoing(pc: Pc) {
    pc.Undo?
  }

  // ----- Invariant -----

  /** The pointer under position i. */
  function Below(items: seq<Entry>, i: int): Ptr
    requires 0 <= i <= |items|
  {
    if i == 0 then Null else items[i - 1].ptr
  }

  ghost predicate Shape(s: State) {
    && s.bits == None && s.top == Below(s.items, |s.items|)
    && (forall i :: 0 <= i < |s.items| ==> s.items[i].ptr.Tagged?)
    && (forall k :: k in s.issued ==> k <= s.key)
  }

  predicate IsPublished(s: State, p: Ptr) {
    p.Tagged? ==> p.key in s.issued && s.issued[p.key] == Published
  }

  predicate IsMapped(s: State, p: Ptr) {
    p.Tagged? ==> p.adr in s.mem
  }

  ghost predicate LiveAt(s: State, i: int)
    requires Shape(s) && 0 <= i < |s.items|
  {
    var e := s.items[i];
    && e.ptr.adr in s.mem && IsPublished(s, e.ptr)
    && s.mem[e.ptr.adr] == Cell(e.data, Below(s.items, i), InStack(i))
  }

  ghost predicate Live(s: State)
    requires Shape(s)
  {
    forall i {:trigger LiveAt(s, i)} :: 0 <= i < |s.items| ==> LiveAt(s, i)
  }

  /** Every node is in the pool, at one place of the stack, or held by one thread. */
  ghost predicate Owned(s: State, a: Addr)
    requires Shape(s) && a in s.mem
  {
    match s.mem[a].owner
    case InPool => true
    case InStack(k) => k < |s.items| && s.items[k].ptr.adr == a
    case HeldBy(t) => t in s.thr && Holds(s.thr[t]) == Some(a)
  }

  ghost predicate Owners(s: State)
    requires Shape(s)
  {
    forall a {:trigger Owned(s, a)} :: a in s.mem ==> Owned(s, a)
  }

  predicate Mine(s: State, t: Tid, a: Addr) {
    a in s.mem && s.mem[a].owner == HeldBy(t)
  }

  predicate HasKey(s: State, t: Tid, key: nat) {
    key in s.issued && s.issued[key] == Drawn(t)
  }

  predicate Known(s: State, p: Ptr) {
    IsPublished(s, p) && IsMapped(s, p)
  }

  /** What a popper read through seen is right wherever seen still is in the stack. */
  ghost predicate NextRead(s: State, seen: Ptr, next: Ptr)
    requires Shape(s)
  {
    && seen.Tagged? && Known(s, seen)
    && forall i :: 0 <= i < |s.items| && s.items[i].ptr == seen ==> next == Below(s.items, i)
  }

  ghost predicate LocalOk(s: State, t: Tid, pc: Pc)
    requires Shape(s)
  {
    match pc
    case WriteData(a, d) => Mine(s, t, a)
    case TakeKey(a, d) => Mine(s, t, a) && s.mem[a].data == d
    case ReadTop(a, d, key) => Mine(s, t, a) && s.mem[a].data == d && HasKey(s, t, key)
    case WriteNext(a, d, key, seen) =>
      Mine(s, t, a) && s.mem[a].data == d && HasKey(s, t, key) && Known(s, seen)
    case SwingTop(a, d, key, seen) =>
      Mine(s, t, a) && s.mem[a].data == d && HasKey(s, t, key) && s.mem[a].next == seen && Known(s, seen)
    case ReadNext(seen) => seen.Tagged? && Known(s, seen)
    case ReadData(seen, next) => NextRead(s, seen, next)
    case Take(seen, next, d) =>
      && NextRead(s, seen, next)
      && forall i :: 0 <= i < |s.items| && s.items[i].ptr == seen ==> d == s.items[i].data
    case Release(a, d) => Mine(s, t, a)
    case _ => true
  }

  ghost predicate Locals(s: State)
    requires Shape(s)
  {
    forall t {:trigger s.thr[t]} :: t in s.thr ==> LocalOk(s, t, s.thr[t])
  }

  ghost predicate Accounts(s: State) {
    && s.size + Count(s.thr, Undoing) >= 0
    && |s.items| == s.size + Count(s.thr, Undoing) + Count(s.thr, Claims)
  }

  ghost predicate Structure(s: State) {
    Shape(s) && Live(s) && Owners(s)
  }

  ghost predicate Core(s: State) {
    Structure(s) && Locals(s)
  }

  ghost predicate Inv(s: State) {
    Core(s) && Accounts(s)
  }

  lemma InitInv(s: State)
    requires Init(s)
    ensures Inv(s)
  {
    CountZero(s.thr, Undoing);
    CountZero(s.thr, Claims);
    forall a | a in s.mem ensures Owned(s, a) {
    }
  }

  // ----- Preservation of the structure -----

  lemma QuietCore(s: State, size: int, t: Tid, pc: Pc)
    requires Core(s) && (t in s.thr ==> Holds(pc) == Holds(s.thr[t])) && (t !in s.thr ==> pc == Idle)
    requires LocalOk(s, t, pc)
    ensures Core(Goto(s.(size := size), t, pc))
  {
    var s' := Goto(s.(size := size), t, pc);
    forall i | 0 <= i < |s.items| ensures LiveAt(s', i) {
      assert LiveAt(s, i);
    }
    forall a | a in s.mem ensures Owned(s', a) {
      assert Owned(s, a);
    }
    forall u | u in s'.thr ensures LocalOk(s', u, s'.thr[u]) {
      if u != t {
        assert LocalOk(s, u, s.thr[u]);
      }
    }
  }

  ghost function HeldCell(c: Cell, t: Tid, a: Addr): Option<Addr> {
    if c.owner == HeldBy(t) then Some(a) else None
  }

  lemma OwnCellCore(s: State, a: Addr, c: Cell, t: Tid, pc: Pc)
    requires Core(s) && t in s.thr && a in s.mem
    requires s.mem[a].owner == InPool || s.mem[a].owner == HeldBy(t)
    requires c.owner == InPool || c.owner == HeldBy(t)
    requires Holds(s.thr[t]) == HeldCell(s.mem[a], t, a) && Holds(pc) == HeldCell(c, t, a)
    requires var s' := Goto(Put(s, a, c), t, pc); Shape(s') && LocalOk(s', t, pc)
    ensures Core(Goto(Put(s, a, c), t, pc))
  {
    var s' := Goto(Put(s, a, c), t, pc);
    forall i | 0 <= i < |s.items| ensures LiveAt(s', i) {
      assert LiveAt(s, i);
    }
    forall b | b in s'.mem ensures Owned(s', b) {
      assert Owned(s, b);
    }
    forall u | u in s'.thr ensures LocalOk(s', u, s'.thr[u]) {
      if u != t {
        assert LocalOk(s, u, s.thr[u]);
      }
    }
  }

  lemma PoolCellCore(s: State, a: Addr, c: Cell)
    requires Core(s) && c.owner == InPool
    requires a in s.mem ==> s.mem[a].owner == InPool
    ensures Core(Put(s, a, c))
  {
    var s' := Put(s, a, c);
    forall i | 0 <= i < |s.items| ensures LiveAt(s', i) {
      assert LiveAt(s, i);
    }
    forall b | b in s'.mem ensures Owned(s', b) {
      if b in s.mem {
        assert Owned(s, b);
      }
    }
    forall u | u in s'.thr ensures LocalOk(s', u, s'.thr[u]) {
      assert LocalOk(s, u, s.thr[u]);
    }
  }

  /** Drawing a key: it is new, so nobody can hold a pointer that carries it. */
  lemma TakeKeyCore(s: State, t: Tid)
    requires Core(s) && t in s.thr && s.thr[t].TakeKey?
    ensures Core(Move(s, t))
  {
    var s' := Move(s, t);
    assert s.key + 1 !in s.issued;
    assert LocalOk(s, t, s.thr[t]);
    forall i | 0 <= i < |s.items| ensures LiveAt(s', i) {
      assert LiveAt(s, i);
    }
    forall a | a in s.mem ensures Owned(s', a) {
      assert Owned(s, a);
    }
    forall u | u in s'.thr ensures LocalOk(s', u, s'.thr[u]) {
      if u != t {
        assert LocalOk(s, u, s.thr[u]);
      }
    }
  }

  ghost predicate CanPush(s: State, t: Tid) {
    t in s.thr && s.thr[t].SwingTop? && s.thr[t].a in s.mem && s.top == s.thr[t].seen
  }

  ghost function AfterPush(s: State, t: Tid): State
    requires CanPush(s, t)
  {
    WinPush(s, t, s.thr[t].a, s.thr[t].d, s.thr[t].key)
  }

  /** A won push puts the node on top; no popper can mistake it for a node it read before,
      even at the same address, because its key was never published. */
  lemma PushStructure(s: State, t: Tid)
    requires Core(s) && CanPush(s, t)
    ensures Structure(AfterPush(s, t))
  {
    var s' := AfterPush(s, t);
    assert LocalOk(s, t, s.thr[t]);
    forall i | 0 <= i < |s'.items| ensures LiveAt(s', i) {
      if i < |s.items| {
        assert LiveAt(s, i);
        assert Below(s'.items, i) == Below(s.items, i);
      }
    }
    forall a | a in s'.mem ensures Owned(s', a) {
      assert Owned(s, a);
    }
  }

  lemma PushLocals(s: State, t: Tid)
    requires Core(s) && CanPush(s, t) && Shape(AfterPush(s, t))
    ensures Locals(AfterPush(s, t))
  {
    forall u | u in AfterPush(s, t).thr ensures LocalOk(AfterPush(s, t), u, AfterPush(s, t).thr[u]) {
      if u != t {
        PushLocal(s, t, u);
      }
    }
  }

  lemma PushLocal(s: State, t: Tid, u: Tid)
    requires Core(s) && CanPush(s, t) && Shape(AfterPush(s, t)) && u in s.thr && u != t
    ensures LocalOk(AfterPush(s, t), u, s.thr[u])
  {
    var s' := AfterPush(s, t);
    var n := |s.items|;
    assert LocalOk(s, t, s.thr[t]) && LocalOk(s, u, s.thr[u]);
    assert forall i :: 0 <= i < n ==> s'.items[i] == s.items[i] && Below(s'.items, i) == Below(s.items, i);
    assert s.thr[u].ReadData? || s.thr[u].Take? ==> s'.items[n].ptr != s.thr[u].seen;
  }

  ghost predicate CanPop(s: State, t: Tid) {
    && t in s.thr && s.thr[t].Take? && s.top == s.thr[t].seen
    && s.thr[t].seen.Tagged? && s.thr[t].seen.adr in s.mem
  }

  ghost function AfterPop(s: State, t: Tid): State
    requires CanPop(s, t)
  {
    WinPop(s, t, s.thr[t].seen, s.thr[t].next, s.thr[t].d)
  }

  /** A won pop removes exactly the top: what it read through the pointer is still true. */
  lemma PopStructure(s: State, t: Tid)
    requires Core(s) && CanPop(s, t)
    ensures |s.items| > 0 && s.thr[t].d == s.items[|s.items| - 1].data
    ensures Structure(AfterPop(s, t))
  {
    var s' := AfterPop(s, t);
    var n := |s.items| - 1;
    assert LocalOk(s, t, s.thr[t]);
    assert LiveAt(s, n);
    assert Below(s'.items, n) == Below(s.items, n);
    forall i | 0 <= i < |s'.items| ensures LiveAt(s', i) {
      assert LiveAt(s, i);
      assert Below(s'.items, i) == Below(s.items, i);
    }
    forall a | a in s'.mem ensures Owned(s', a) {
      assert Owned(s, a);
    }
  }

  lemma PopLocals(s: State, t: Tid)
    requires Core(s) && CanPop(s, t) && |s.items| > 0 && Shape(AfterPop(s, t))
    ensures Locals(AfterPop(s, t))
  {
    var s' := AfterPop(s, t);
    var n := |s.items| - 1;
    assert LocalOk(s, t, s.thr[t]);
    assert LiveAt(s, n);
    forall u | u in s'.thr ensures LocalOk(s', u, s'.thr[u]) {
      if u != t {
        assert LocalOk(s, u, s.thr[u]);
        if s.thr[u].ReadData? || s.thr[u].Take? {
          NextReadPrefix(s, s', s.thr[u].seen, s.thr[u].next);
        }
      }
    }
  }

  lemma NextReadPrefix(s: State, s': State, seen: Ptr, next: Ptr)
    requires Shape(s) && Shape(s') && NextRead(s, seen, next)
    requires s'.items <= s.items && s'.issued == s.issued && s'.mem.Keys == s.mem.Keys
    ensures NextRead(s', seen, next)
  {
    forall i | 0 <= i < |s'.items| && s'.items[i].ptr == seen ensures next == Below(s'.items, i) {
      assert s.items[i].ptr == seen;
    }
  }

  /** A reservation guarantees a node, so the top a popper reads is never null. */
  lemma ReservedFindsNode(s: State, t: Tid)
    requires Inv(s) && t in s.thr && Reserved(s.thr[t])
    ensures |s.items| > 0 && s.top.Tagged? && Known(s, s.top)
  {
    CountPositive(s.thr, t, Claims);
    assert LiveAt(s, |s.items| - 1);
  }

  lemma ReadCore(s: State, t: Tid)
    requires Core(s) && Enabled(s, Advance(t))
    requires s.thr[t].ReadNext? || s.thr[t].ReadData?
    ensures Core(Move(s, t))
  {
    var pc := Move(s, t).thr[t];
    assert LocalOk(s, t, s.thr[t]);
    forall i | 0 <= i < |s.items| && s.items[i].ptr == s.thr[t].seen
      ensures s.mem[s.thr[t].seen.adr] == Cell(s.items[i].data, Below(s.items, i), InStack(i))
    {
      assert LiveAt(s, i);
    }
    assert s.(size := s.size) == s;
    QuietCore(s, s.size, t, pc);
  }

  lemma WriteCore(s: State, t: Tid)
    requires Core(s) && Enabled(s, Advance(t))
    requires s.thr[t].WriteData? || s.thr[t].WriteNext? || s.thr[t].Release?
    ensures Core(Move(s, t))
  {
    var s' := Move(s, t);
    var a := s.thr[t].a;
    assert LocalOk(s, t, s.thr[t]);
    OwnCellCore(s, a, s'.mem[a], t, s'.thr[t]);
  }

  lemma TopKnown(s: State)
    requires Core(s)
    ensures Known(s, s.top)
  {
    if s.items != [] {
      assert LiveAt(s, |s.items| - 1);
    }
  }

  /** A step that touches no node: a size update, a read of the top, or a lost CAS. */
  lemma LightCore(s: State, t: Tid)
    requires Inv(s) && Enabled(s, Advance(t))
    requires var pc := s.thr[t];
      || pc.CountUp? || pc.Reserve? || pc.Undo? || pc.ReadTop? || pc.LoadTop?
      || ((pc.SwingTop? || pc.Take?) && s.top != pc.seen)
    ensures Core(Move(s, t))
  {
    var s' := Move(s, t);
    assert LocalOk(s, t, s.thr[t]);
    TopKnown(s);
    if s.thr[t].LoadTop? {
      ReservedFindsNode(s, t);
    }
    assert s' == Goto(s.(size := s'.size), t, s'.thr[t]);
    QuietCore(s, s'.size, t, s'.thr[t]);
  }

  lemma MoveCore(s: State, t: Tid)
    requires Inv(s) && Enabled(s, Advance(t))
    ensures Core(Move(s, t))
  {
    match s.thr[t] {
      case WriteData(_, _) => WriteCore(s, t);
      case WriteNext(_, _, _, _) => WriteCore(s, t);
      case Release(_, _) => WriteCore(s, t);
      case TakeKey(_, _) => TakeKeyCore(s, t);
      case SwingTop(_, _, _, seen) =>
        if s.top == seen {
          assert LocalOk(s, t, s.thr[t]);
          PushStructure(s, t);
          PushLocals(s, t);
        } else {
          LightCore(s, t);
        }
      case Take(seen, _, _) =>
        if s.top == seen {
          assert LocalOk(s, t, s.thr[t]);
          PopStructure(s, t);
          PopLocals(s, t);
        } else {
          LightCore(s, t);
        }
      case ReadNext(_) => ReadCore(s, t);
      case ReadData(_, _) => ReadCore(s, t);
      case _ => LightCore(s, t);
    }
  }

  // ----- Accounting -----

  ghost predicate Books(s: State, s': State, t: Tid, pc: Pc) {
    && t in s.thr && s'.thr == s.thr[t := pc]
    && var undo := s'.size - s.size + Bit(Undoing(pc)) - Bit(Undoing(s.thr[t]));
       && (undo >= 0 || s'.size >= 0)
       && |s'.items| - |s.items| == undo + Bit(Claims(pc)) - Bit(Claims(s.thr[t]))
  }

  lemma BooksAccounts(s: State, s': State, t: Tid, pc: Pc)
    requires Accounts(s) && Books(s, s', t, pc)
    ensures Accounts(s')
  {
    CountUpdate(s.thr, t, pc, Undoing);
    CountUpdate(s.thr, t, pc, Claims);
  }

  lemma MoveBooks(s: State, t: Tid)
    requires Enabled(s, Advance(t)) && (s.thr[t].Take? && s.top == s.thr[t].seen ==> |s.items| > 0)
    ensures Books(s, Move(s, t), t, Move(s, t).thr[t])
  {
    assert Move(s, t).thr == s.thr[t := Move(s, t).thr[t]];
  }

  lemma StartBooks(s: State, step: Step)
    requires Enabled(s, step) && (step.StartPush? || step.StartPop? || step.Allocate?)
    ensures Books(s, Apply(s, step), step.t, Apply(s, step).thr[step.t])
  {
  }

  lemma AccountsStep(s: State, step: Step)
    requires Inv(s) && Enabled(s, step)
    ensures Accounts(Apply(s, step))
  {
    match step {
      case Spawn(t) =>
        CountSpawn(s.thr, t, Idle, Undoing);
        CountSpawn(s.thr, t, Idle, Claims);
      case Advance(t) =>
        if s.thr[t].Take? && s.top == s.thr[t].seen {
          PopStructure(s, t);
        }
        MoveBooks(s, t);
        BooksAccounts(s, Move(s, t), t, Move(s, t).thr[t]);
      case Carve(_, _, _) =>
      case Scribble(_, _, _) =>
      case _ =>
        StartBooks(s, step);
        BooksAccounts(s, Apply(s, step), step.t, Apply(s, step).thr[step.t]);
    }
  }

  lemma CoreStep(s: State, step: Step)
    requires Inv(s) && Enabled(s, step)
    ensures Core(Apply(s, step))
  {
    assert s.(size := s.size) == s;
    match step {
      case Spawn(t) => QuietCore(s, s.size, t, Idle);
      case StartPush(t, d) => QuietCore(s, s.size, t, NeedNode(d));
      case StartPop(t) => QuietCore(s, s.size, t, Reserve);
      case Allocate(t, a) =>
        assert Owned(s, a);
        OwnCellCore(s, a, s.mem[a].(owner := HeldBy(t)), t, WriteData(a, s.thr[t].d));
      case Advance(t) => MoveCore(s, t);
      case Carve(a, data, next) => PoolCellCore(s, a, Cell(data, next, InPool));
      case Scribble(a, data, next) => PoolCellCore(s, a, Cell(data, next, InPool));
    }
  }

  /** Every step of every thread and of the pool keeps the invariant. */
  lemma StepInv(s: State, step: Step)
    requires Inv(s) && Enabled(s, step)
    ensures Inv(Apply(s, step))
  {
    CoreStep(s, step);
    AccountsStep(s, step);
  }

  // ----- Guarantees -----

  ghost predicate Reachable(s: State) {
    exists s0: State, steps: seq<Step> :: Init(s0) && Runs(s0, steps) && End(s0, steps) == s
  }

  lemma RunInv(s: State, steps: seq<Step>)
    requires Inv(s) && Runs(s, steps)
    ensures Inv(End(s, steps))
    decreases |steps|
  {
    if steps != [] {
      StepInv(s, steps[0]);
      RunInv(Apply(s, steps[0]), steps[1..]);
    }
  }

  lemma ReachableInv(s: State)
    requires Reachable(s)
    ensures Inv(s)
  {
    var s0: State, steps: seq<Step> :| Init(s0) && Runs(s0, steps) && End(s0, steps) == s;
    InitInv(s0);
    RunInv(s0, steps);
  }

  /** The abstract stack, bottom first. */
  ghost function Stacked(s: State): seq<Data> {
    seq(|s.items|, i requires 0 <= i < |s.items| => s.items[i].data)
  }

  /** The sequential stack: what each event does to it. */
  ghost predicate StackSpec(q: seq<Data>, e: Event, q': seq<Data>) {
    match e
    case Pushed(d) => q' == q + [d]
    case Popped(d) => q == q' + [d]
    case Silent => q' == q
  }

  /** Each step is one operation of the sequential stack or invisible: in particular a won pop
      returns the data pushed with the node on top, whatever happened to that node and its
      address between the popper's reads. */
  lemma StepRefines(s: State, step: Step)
    requires Inv(s) && Enabled(s, step)
    ensures Inv(Apply(s, step))
    ensures StackSpec(Stacked(s), Observe(s, step), Stacked(Apply(s, step)))
  {
    StepInv(s, step);
    if step.Advance? {
      AdvanceRefines(s, step.t);
    } else {
      assert Apply(s, step).items == s.items;
    }
  }

  lemma AdvanceRefines(s: State, t: Tid)
    requires Core(s) && Enabled(s, Advance(t))
    ensures StackSpec(Stacked(s), Observe(s, Advance(t)), Stacked(Move(s, t)))
  {
    var s' := Move(s, t);
    match Observe(s, Advance(t)) {
      case Pushed(_) => StackedAppend(s, s');
      case Popped(_) =>
        PopStructure(s, t);
        StackedAppend(s', s);
      case Silent => assert s'.items == s.items;
    }
  }

  lemma StackedAppend(lo: State, hi: State)
    requires |hi.items| > 0 && lo.items == hi.items[..|hi.items| - 1]
    ensures Stacked(hi) == Stacked(lo) + [hi.items[|hi.items| - 1].data]
  {
  }

  /** A sequential history, replayed from the content q: every pop finds its data on top. */
  ghost function Replay(q: seq<Data>, events: seq<Event>): Option<seq<Data>>
    decreases |events|
  {
    if events == [] then Some(q)
    else match events[0]
      case Pushed(d) => Replay(q + [d], events[1..])
      case Popped(d) =>
        if q != [] && q[|q| - 1] == d then Replay(q[..|q| - 1], events[1..]) else None
      case Silent => Replay(q, events[1..])
  }

  /** The won swaps of any run, in order, are a legal sequential stack history that ends in
      the abstract stack: last in, first out, nothing lost, nothing twice. */
  lemma {:induction false} Lifo(s: State, steps: seq<Step>)
    requires Inv(s) && Runs(s, steps)
    ensures Inv(End(s, steps))
    ensures Replay(Stacked(s), Events(s, steps)) == Some(Stacked(End(s, steps)))
    decreases |steps|
  {
    if steps != [] {
      var s' := Apply(s, steps[0]);
      StepRefines(s, steps[0]);
      Lifo(s', steps[1..]);
      if Observe(s, steps[0]) != Silent {
        ReplayStep(Stacked(s), Observe(s, steps[0]), Stacked(s'), Events(s', steps[1..]));
      }
    }
  }

  lemma ReplayStep(q: seq<Data>, e: Event, q': seq<Data>, rest: seq<Event>)
    requires StackSpec(q, e, q') && e != Silent
    ensures Replay(q, [e] + rest) == Replay(q', rest)
  {
    assert ([e] + rest)[1..] == rest;
    if e.Popped? {
      assert q[..|q| - 1] == q';
    }
  }

  lemma LifoFromEmpty(s0: State, steps: seq<Step>)
    requires Init(s0) && Runs(s0, steps)
    ensures Replay([], Events(s0, steps)) == Some(Stacked(End(s0, steps)))
  {
    InitInv(s0);
    assert Stacked(s0) == [];
    Lifo(s0, steps);
  }

  /** `_size` against the real height: every node is counted, or belongs to a pusher that has
      not counted it yet, a popper that reserved it, or a popper about to give back a
      reservation; and nodes never run short of the reservations. */
  lemma SizeAccounts(s: State)
    requires Reachable(s)
    ensures |Stacked(s)| == s.size + Count(s.thr, Claims) + Count(s.thr, Undoing)
    ensures |Stacked(s)| >= Count(s.thr, Claims)
  {
    ReachableInv(s);
  }

  /** When a Pop reports an empty stack: exactly if, at its reservation, every present node is
      matched by an operation in flight. */
  lemma EmptyVerdict(s: State, t: Tid)
    requires Reachable(s) && t in s.thr && s.thr[t] == Reserve
    ensures Move(s, t).thr[t] == Undo <==> |Stacked(s)| <= Count(s.thr, Claims) + Count(s.thr, Undoing)
  {
    SizeAccounts(s);
  }

  /** A popper past the size test finds a node; no thread ever dereferences null or an address
      outside the node memory. */
  lemma NoNullTop(s: State, t: Tid)
    requires Reachable(s) && t in s.thr
    ensures Grounded(s, s.thr[t])
    ensures s.thr[t].LoadTop? ==> s.top.Tagged? && s.top.adr in s.mem
  {
    ReachableInv(s);
    assert LocalOk(s, t, s.thr[t]);
    if s.thr[t].LoadTop? {
      ReservedFindsNode(s, t);
    }
  }

  // ----- Progress -----

  ghost predicate Ready(s: State, t: Tid) {
    Core(s) && t in s.thr && Reserved(s.thr[t]) && |s.items| > 0
  }

  ghost function Rank(s: State, pc: Pc): nat {
    match pc
    case Take(seen, _, _) => if seen == s.top then 1 else 5
    case ReadData(seen, _) => if seen == s.top then 2 else 6
    case ReadNext(seen) => if seen == s.top then 3 else 7
    case LoadTop => 4
    case _ => 0
  }

  /** Thread t has just taken the data on top of s. */
  ghost predicate TookTop(s: State, s': State, t: Tid)
    requires |s.items| > 0
  {
    s.top.Tagged? && t in s'.thr && s'.thr[t] == Release(s.top.adr, s.items[|s.items| - 1].data)
  }

  ghost function Alone(s: State, t: Tid, n: nat): State
    decreases n
  {
    if n == 0 || !Enabled(s, Advance(t)) then s else Alone(Move(s, t), t, n - 1)
  }

  /** One step of a popper alone: it takes the top, or comes nearer and changes nothing else. */
  lemma SoloMove(s: State, t: Tid)
    requires Ready(s, t)
    ensures Enabled(s, Advance(t))
    ensures var s' := Move(s, t);
      || TookTop(s, s', t)
      || (&& t in s'.thr && Reserved(s'.thr[t]) && s' == Goto(s, t, s'.thr[t])
          && Rank(s', s'.thr[t]) < Rank(s, s.thr[t]))
  {
    assert LocalOk(s, t, s.thr[t]);
    assert LiveAt(s, |s.items| - 1);
  }

  lemma SoloCore(s: State, t: Tid)
    requires Ready(s, t) && Enabled(s, Advance(t)) && t in Move(s, t).thr
    requires Move(s, t) == Goto(s, t, Move(s, t).thr[t]) && Reserved(Move(s, t).thr[t])
    ensures Core(Move(s, t))
  {
    assert LocalOk(s, t, s.thr[t]);
    if s.thr[t].ReadNext? || s.thr[t].ReadData? {
      ReadCore(s, t);
    } else {
      assert LiveAt(s, |s.items| - 1);
      assert s.(size := s.size) == s;
      QuietCore(s, s.size, t, Move(s, t).thr[t]);
    }
  }

  lemma SoloStep(s: State, t: Tid)
    requires Ready(s, t)
    ensures Enabled(s, Advance(t))
    ensures var s' := Move(s, t);
      || TookTop(s, s', t)
      || (Ready(s', t) && Rank(s', s'.thr[t]) < Rank(s, s.thr[t]) && s'.top == s.top && s'.items == s.items)
  {
    SoloMove(s, t);
    if !TookTop(s, Move(s, t), t) {
      SoloCore(s, t);
    }
  }

  /** Whatever stale values it holds, a reserved popper that runs alone returns the data on top
      within seven steps. */
  lemma {:induction false} SoloPop(s: State, t: Tid) returns (n: nat)
    requires Ready(s, t)
    ensures n <= Rank(s, s.thr[t]) <= 7
    ensures TookTop(s, Alone(s, t, n), t)
    decreases Rank(s, s.thr[t])
  {
    SoloStep(s, t);
    var s' := Move(s, t);
    if TookTop(s, s', t) {
      n := 1;
      assert Alone(s, t, 1) == Alone(s', t, 0);
    } else {
      n := SoloPop(s', t);
      n := n + 1;
      assert Alone(s, t, n) == Alone(s', t, n - 1);
    }
  }

  /** From every reachable state any popper past the size test can finish on its own. */
  lemma PopCanFinish(s: State, t: Tid) returns (n: nat)
    requires Reachable(s) && t in s.thr && Reserved(s.thr[t])
    ensures |s.items| > 0 && n <= 7 && TookTop(s, Alone(s, t, n), t)
  {
    ReachableInv(s);
    ReservedFindsNode(s, t);
    n := SoloPop(s, t);
  }
}
