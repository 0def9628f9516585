/** The CAS stack of Common/LockFree/LockFreeStack.h over any number of threads, one step for
    each shared read, shared write or Interlocked call. The node pool is an environment that
    reuses addresses and may rewrite the nodes it owns.

    With `bits == Some(16)` the keys of the machine are those of the code, a 16-bit counter that
    repeats; with `bits == None` they are natural numbers, so the keys of two pushes differ.
    StackTheorems is about the latter; StackWrap says when a run of the former is one of those. */
module LockFreeStack {
  import opened Bits
  import opened Counting
  import opened Wrappers

  type Data(==, !new)
  type Addr = nat

  datatype Ptr = Null | Tagged(adr: Addr, key: nat)

  datatype Owner = InPool | InStack(pos: nat) | HeldBy(t: Tid)

  datatype Cell = Cell(data: Data, next: Ptr, owner: Owner)

  datatype Pc =
    | Idle
    // Push
    | NeedNode(d: Data)
    | WriteData(a: Addr, d: Data)
    | TakeKey(a: Addr, d: Data)
    | ReadTop(a: Addr, d: Data, key: nat)
    | WriteNext(a: Addr, d: Data, key: nat, seen: Ptr)
    | SwingTop(a: Addr, d: Data, key: nat, seen: Ptr)
    | CountUp
    // Pop
    | Reserve
    | Undo
    | LoadTop
    | ReadNext(seen: Ptr)
    | ReadData(seen: Ptr, next: Ptr)
    | Take(seen: Ptr, next: Ptr, d: Data)
    | Release(a: Addr, d: Data)

  datatype Entry = Entry(ptr: Ptr, data: Data)

  datatype Use = Drawn(t: Tid) | Published

  /** `items` (bottom first) and `issued` (every key handed out, and whether its push has won)
      are history variables. */
  datatype State = State(
    mem: map<Addr, Cell>,
    top: Ptr,
    size: int,
    key: nat,
    bits: Option<nat>,
    thr: map<Tid, Pc>,
    items: seq<Entry>,
    issued: map<nat, Use>)

  datatype Step =
    | Spawn(t: Tid)
    | StartPush(t: Tid, d: Data)
    | StartPop(t: Tid)
    | Allocate(t: Tid, a: Addr)
    | Advance(t: Tid)
    | Carve(a: Addr, data: Data, next: Ptr)
    | Scribble(a: Addr, data: Data, next: Ptr)

  ghost predicate Init(s: State) {
    && s.top == Null && s.size == 0 && s.key == 0 && s.bits == None
    && (forall a :: a in s.mem ==> s.mem[a].owner == InPool)
    && (forall t :: t in s.thr ==> s.thr[t] == Idle)
    && s.items == [] && s.issued == map[]
  }

  /** The address a thread is about to dereference, if any. */
  function Deref(pc: Pc): Option<Ptr> {
    match pc
    case WriteData(a, _) => Some(Tagged(a, 0))
    case WriteNext(a, _, _, _) => Some(Tagged(a, 0))
    case SwingTop(a, _, _, _) => Some(Tagged(a, 0))
    case ReadNext(seen) => Some(seen)
    case ReadData(seen, _) => Some(seen)
    case Take(seen, _, _) => Some(seen)
    case Release(a, _) => Some(Tagged(a, 0))
    case _ => None
  }

  predicate Grounded(s: State, pc: Pc) {
    match Deref(pc)
    case None => true
    case Some(p) => p.Tagged? && p.adr in s.mem
  }

  /** The pointer is a word of the machine. */
  predicate Fits(s: State, p: Ptr) {
    p.Tagged? ==> p.key == Cut(s.bits, p.key)
  }

  predicate Enabled(s: State, step: Step) {
    match step
    case Spawn(t) => t !in s.thr
    case StartPush(t, _) => t in s.thr && s.thr[t] == Idle
    case StartPop(t) => t in s.thr && s.thr[t] == Idle
    case Allocate(t, a) =>
      t in s.thr && s.thr[t].NeedNode? && a in s.mem && s.mem[a].owner == InPool
    case Advance(t) =>
      t in s.thr && s.thr[t] != Idle && !s.thr[t].NeedNode? && Grounded(s, s.thr[t])
    case Carve(a, _, next) => a !in s.mem && Fits(s, next)
    case Scribble(a, _, next) => a in s.mem && s.mem[a].owner == InPool && Fits(s, next)
  }

  function Goto(s: State, t: Tid, pc: Pc): State {
    s.(thr := s.thr[t := pc])
  }

  function Put(s: State, a: Addr, c: Cell): State {
    s.(mem := s.mem[a := c])
  }

  function Apply(s: State, step: Step): State
    requires Enabled(s, step)
  {
    match step
    case Spawn(t) => Goto(s, t, Idle)
    case StartPush(t, d) => Goto(s, t, NeedNode(d))
    case StartPop(t) => Goto(s, t, Reserve)
    case Allocate(t, a) =>
      Goto(Put(s, a, s.mem[a].(owner := HeldBy(t))), t, WriteData(a, s.thr[t].d))
    case Advance(t) => Move(s, t)
    case Carve(a, data, next) => Put(s, a, Cell(data, next, InPool))
    case Scribble(a, data, next) => Put(s, a, Cell(data, next, InPool))
  }

  function Move(s: State, t: Tid): State
    requires Enabled(s, Advance(t))
  {
    match s.thr[t]
    case WriteData(a, d) => Goto(Put(s, a, s.mem[a].(data := d)), t, TakeKey(a, d))
    case TakeKey(a, d) =>
      var key := Cut(s.bits, s.key + 1);
      Goto(s.(key := key, issued := s.issued[key := Drawn(t)]), t, ReadTop(a, d, key))
    case ReadTop(a, d, key) => Goto(s, t, WriteNext(a, d, key, s.top))
    case WriteNext(a, d, key, seen) =>
      Goto(Put(s, a, s.mem[a].(next := seen)), t, SwingTop(a, d, key, seen))
    case SwingTop(a, d, key, seen) =>
      if s.top == seen then WinPush(s, t, a, d, key) else Goto(s, t, ReadTop(a, d, key))
    case CountUp => Goto(s.(size := s.size + 1), t, Idle)
    case Reserve => Goto(s.(size := s.size - 1), t, if s.size - 1 < 0 then Undo else LoadTop)
    case Undo => Goto(s.(size := s.size + 1), t, Idle)
    case LoadTop => Goto(s, t, ReadNext(s.top))
    case ReadNext(seen) => Goto(s, t, ReadData(seen, s.mem[seen.adr].next))
    case ReadData(seen, next) => Goto(s, t, Take(seen, next, s.mem[seen.adr].data))
    case Take(seen, next, d) =>
      if s.top == seen then WinPop(s, t, seen, next, d) else Goto(s, t, LoadTop)
    case Release(a, _) => Goto(Put(s, a, s.mem[a].(owner := InPool)), t, Idle)
  }

  /** Effect of a successful push CAS. */
  function WinPush(s: State, t: Tid, a: Addr, d: Data, key: nat): State
    requires a in s.mem
  {
    Goto(Put(s, a, s.mem[a].(owner := InStack(|s.items|))), t, CountUp)
      .(top := Tagged(a, key), items := s.items + [Entry(Tagged(a, key), d)],
        issued := s.issued[key := Published])
  }

  /** Effect of a successful pop CAS. */
  function WinPop(s: State, t: Tid, seen: Ptr, next: Ptr, d: Data): State
    requires seen.Tagged? && seen.adr in s.mem
  {
    Goto(Put(s, seen.adr, s.mem[seen.adr].(owner := HeldBy(t))), t, Release(seen.adr, d))
      .(top := next, items := if s.items == [] then [] else s.items[..|s.items| - 1])
  }

  // ----- Runs -----

  ghost predicate Runs(s: State, steps: seq<Step>)
    decreases |steps|
  {
    steps == [] || (Enabled(s, steps[0]) && Runs(Apply(s, steps[0]), steps[1..]))
  }

  ghost function End(s: State, steps: seq<Step>): State
    requires Runs(s, steps)
    decreases |steps|
  {
    if steps == [] then s else End(Apply(s, steps[0]), steps[1..])
  }

  /** What a step does, seen from outside. */
  datatype Event = Pushed(d: Data) | Popped(d: Data) | Silent

  function Observe(s: State, step: Step): Event
    requires Enabled(s, step)
  {
    if step.Advance? && s.thr[step.t].SwingTop? && s.top == s.thr[step.t].seen then
      Pushed(s.thr[step.t].d)
    else if step.Advance? && s.thr[step.t].Take? && s.top == s.thr[step.t].seen then
      Popped(s.thr[step.t].d)
    else
      Silent
  }

  /** The visible events of a run, in order. */
  ghost function Events(s: State, steps: seq<Step>): seq<Event>
    requires Runs(s, steps)
    decreases |steps|
  {
    if steps == [] then []
    else
      var rest := Events(Apply(s, steps[0]), steps[1..]);
      if Observe(s, steps[0]) == Silent then rest else [Observe(s, steps[0])] + rest
  }
}
