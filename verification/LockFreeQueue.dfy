/** The CAS queue of Common/LockFree, as a machine over any number of threads.

    One step is one shared read, one shared write or one Interlocked call. With
    `limit == None` the machine is LFQueue; with `limit == Some(m)` it is MAXLFQueue
    with `_maxSize == m`, which differs only by the size test in front of Enqueue.

    The node pool is an environment: it may hand out any node it owns, so addresses are
    reused, and while it owns a node anybody else (another queue on the same static pool)
    may write that node. Node memory is never unmapped.

    With `bits == Some(16)` the tags of the machine are those of the code, which repeat (in a
    word, as TaggedPointer shows); with `bits == None` they are natural numbers. QueueTheorems is
    about the latter; QueueWrap says when a run of the former is one of those. */
module LockFreeQueue {
  import Bits
  import opened Counting
  import opened Wrappers

  type Data(==, !new)
  type Addr = nat

  datatype Ptr = Null | Tagged(adr: Addr, tag: nat)

  datatype Owner = InPool | InChain(pos: nat) | HeldBy(t: Tid)

  datatype Cell = Cell(data: Data, next: Ptr, owner: Owner)

  /** Program counter together with the locals that are live there. `slot` is a history
      variable: the position of the replaced tail in tail-swap order. No step reads it to
      decide anything. */
  datatype Pc =
    | Idle
    // Enqueue
    | CheckSize(d: Data)
    | NeedNode(d: Data)
    | WriteData(a: Addr, d: Data)
    | WriteNull(a: Addr, d: Data)
    | ReadTail(a: Addr, d: Data, acc: nat)
    | SwingTail(a: Addr, d: Data, acc: nat, seen: Ptr)
    | LinkPrev(a: Addr, d: Data, acc: nat, seen: Ptr, slot: nat)
    | CountUp
    // Dequeue
    | Reserve
    | Undo
    | FindTail
    | TailNext(seen: Ptr)
    | HelpRead(seen: Ptr)
    | HelpSwing(seen: Ptr, next: Ptr)
    | FindHead
    | HeadNext(seen: Ptr)
    | ReadData(seen: Ptr, succ: Ptr)
    | SwingHead(seen: Ptr, succ: Ptr, d: Data)
    | Release(a: Addr, d: Data)

  /** One won tail swap: the pointer it published, the data of the call, and the thread
      that still has to link this node to its successor, if any. */
  datatype Entry = Entry(ptr: Ptr, data: Data, linker: Option<Tid>)

  /** `chain` (won tail swaps, the dummy first) and `taken` (data of won head swaps) are
      history variables. */
  datatype State = State(
    mem: map<Addr, Cell>,
    head: Ptr,
    tail: Ptr,
    size: int,
    limit: Option<int>,
    bits: Option<nat>,
    thr: map<Tid, Pc>,
    chain: seq<Entry>,
    taken: seq<Data>)

  datatype Step =
    | Spawn(t: Tid)
    | StartEnqueue(t: Tid, d: Data)
    | StartDequeue(t: Tid)
    | Allocate(t: Tid, a: Addr)
    | Advance(t: Tid)
    | Carve(a: Addr, data: Data, next: Ptr)
    | Scribble(a: Addr, data: Data, next: Ptr)

  // ----- The machine -----

  ghost predicate Init(s: State) {
    && s.head.Tagged? && s.head.tag == 0 && s.tail == s.head
    && s.head.adr in s.mem
    && s.mem[s.head.adr].next == Null && s.mem[s.head.adr].owner == InChain(0)
    && (forall a :: a in s.mem && a != s.head.adr ==> s.mem[a].owner == InPool)
    && (forall a :: a in s.mem ==> Safe(s.mem, s.mem[a].next))
    && s.size == 0 && s.bits == None
    && (forall t :: t in s.thr ==> s.thr[t] == Idle)
    && |s.chain| == 1 && s.chain[0].ptr == s.head && s.chain[0].linker == None
    && s.taken == []
  }

  predicate Safe(mem: map<Addr, Cell>, p: Ptr) {
    p.Tagged? ==> p.adr in mem
  }

  /** The address a thread is about to dereference, if any. */
  function Deref(pc: Pc): Option<Ptr> {
    match pc
    case WriteData(a, _) => Some(Tagged(a, 0))
    case WriteNull(a, _) => Some(Tagged(a, 0))
    case SwingTail(a, _, _, _) => Some(Tagged(a, 0))
    case LinkPrev(_, _, _, seen, _) => Some(seen)
    case TailNext(seen) => Some(seen)
    case HelpRead(seen) => Some(seen)
    case HeadNext(seen) => Some(seen)
    case ReadData(_, succ) => Some(succ)
    case SwingHead(seen, _, _) => Some(seen)
    case Release(a, _) => Some(Tagged(a, 0))
    case _ => None
  }

  /** The dereference a thread is about to make hits mapped memory. */
  predicate Grounded(s: State, pc: Pc) {
    match Deref(pc)
    case None => true
    case Some(p) => p.Tagged? && p.adr in s.mem
  }

  /** The pointer is a word of the machine. */
  predicate Fits(s: State, p: Ptr) {
    p.Tagged? ==> p.tag == Bits.Cut(s.bits, p.tag)
  }

  predicate Enabled(s: State, step: Step) {
    match step
    case Spawn(t) => t !in s.thr
    case StartEnqueue(t, _) => t in s.thr && s.thr[t] == Idle
    case StartDequeue(t) => t in s.thr && s.thr[t] == Idle
    case Allocate(t, a) =>
      t in s.thr && s.thr[t].NeedNode? && a in s.mem && s.mem[a].owner == InPool
    case Advance(t) =>
      t in s.thr && s.thr[t] != Idle && !s.thr[t].NeedNode? && Grounded(s, s.thr[t])
    case Carve(a, _, next) => a !in s.mem && Safe(s.mem, next) && Fits(s, next)
    case Scribble(a, _, next) => a in s.mem && s.mem[a].owner == InPool && Safe(s.mem, next) && Fits(s, next)
  }

  function Goto(s: State, t: Tid, pc: Pc): State {
    s.(thr := s.thr[t := pc])
  }

  function Put(s: State, a: Addr, c: Cell): State {
    s.(mem := s.mem[a := c])
  }

  function Apply(s: State, step: Step): State
    requires Enabled(s, step)
  {
    match step
    case Spawn(t) => Goto(s, t, Idle)
    case StartEnqueue(t, d) => Goto(s, t, if s.limit.Some? then CheckSize(d) else NeedNode(d))
    case StartDequeue(t) => Goto(s, t, Reserve)
    case Allocate(t, a) =>
      Goto(Put(s, a, s.mem[a].(owner := HeldBy(t))), t, WriteData(a, s.thr[t].d))
    case Advance(t) => Move(s, t)
    case Carve(a, data, next) => Put(s, a, Cell(data, next, InPool))
    case Scribble(a, data, next) => Put(s, a, Cell(data, next, InPool))
  }

  /** What thread t does next; every shared access of the two member functions. */
  function Move(s: State, t: Tid): State
    requires Enabled(s, Advance(t))
  {
    match s.thr[t]
    case CheckSize(d) =>
      Goto(s, t, if s.limit.Some? && s.size >= s.limit.value then Idle else NeedNode(d))
    case WriteData(a, d) => Goto(Put(s, a, s.mem[a].(data := d)), t, WriteNull(a, d))
    case WriteNull(a, d) => Goto(Put(s, a, s.mem[a].(next := Null)), t, ReadTail(a, d, 0))
    case ReadTail(a, d, acc) =>
      Goto(s, t, SwingTail(a, d, Bits.Or(acc, NextTag(s)), s.tail))
    case SwingTail(a, d, acc, seen) =>
      if s.tail == seen then WinTail(s, t, a, d, acc, seen)
      else Goto(s, t, ReadTail(a, d, acc))
    case LinkPrev(a, d, acc, seen, slot) =>
      if s.mem[seen.adr].next == Null then WinLink(s, t, Tagged(a, acc), seen, slot)
      else Goto(s, t, ReadTail(a, d, acc))
    case CountUp => Goto(s.(size := s.size + 1), t, Idle)
    case Reserve => Goto(s.(size := s.size - 1), t, if s.size - 1 < 0 then Undo else FindTail)
    case Undo => Goto(s.(size := s.size + 1), t, Idle)
    case FindTail => Goto(s, t, TailNext(s.tail))
    case TailNext(seen) =>
      Goto(s, t, if s.mem[seen.adr].next == Null then FindHead else HelpRead(seen))
    case HelpRead(seen) => Goto(s, t, HelpSwing(seen, s.mem[seen.adr].next))
    case HelpSwing(seen, next) =>
      Goto(if s.tail == seen then s.(tail := next) else s, t, FindTail)
    case FindHead => Goto(s, t, HeadNext(s.head))
    case HeadNext(seen) =>
      var next := s.mem[seen.adr].next;
      Goto(s, t, if next == Null then FindHead else ReadData(seen, next))
    case ReadData(seen, succ) => Goto(s, t, SwingHead(seen, succ, s.mem[succ.adr].data))
    case SwingHead(seen, succ, d) =>
      if s.head == seen then WinHead(s, t, seen, succ, d) else Goto(s, t, FindTail)
    case Release(a, _) => Goto(Put(s, a, s.mem[a].(owner := InPool)), t, Idle)
  }

  /** The tag an enqueuer asks for: one more than the tag it reads. */
  function NextTag(s: State): nat {
    if s.tail.Tagged? then Bits.Cut(s.bits, s.tail.tag + 1) else 0
  }

  /** Effect of a successful tail CAS (the linearisation point of Enqueue). */
  function WinTail(s: State, t: Tid, a: Addr, d: Data, acc: nat, seen: Ptr): State
    requires a in s.mem
  {
    var n := |s.chain|;
    var chain := if n == 0 then [] else s.chain[n - 1 := s.chain[n - 1].(linker := Some(t))];
    Goto(Put(s, a, s.mem[a].(owner := InChain(n))), t,
         LinkPrev(a, d, acc, seen, if n == 0 then 0 else n - 1))
      .(tail := Tagged(a, acc), chain := chain + [Entry(Tagged(a, acc), d, None)])
  }

  /** Effect of a successful link CAS. */
  function WinLink(s: State, t: Tid, mine: Ptr, seen: Ptr, slot: nat): State
    requires seen.Tagged? && seen.adr in s.mem
  {
    Goto(Put(s, seen.adr, s.mem[seen.adr].(next := mine)), t, CountUp)
      .(chain := if slot < |s.chain| then s.chain[slot := s.chain[slot].(linker := None)] else s.chain)
  }

  /** Effect of a successful head CAS (the linearisation point of Dequeue). */
  function WinHead(s: State, t: Tid, seen: Ptr, succ: Ptr, d: Data): State
    requires seen.Tagged? && seen.adr in s.mem
  {
    Goto(Put(s, seen.adr, s.mem[seen.adr].(owner := HeldBy(t))), t, Release(seen.adr, d))
      .(head := succ, taken := s.taken + [d])
  }

  // ----- Runs -----

  /** The schedule can be executed from s, in this order. */
  ghost predicate Runs(s: State, steps: seq<Step>)
    decreases |steps|
  {
    steps == [] || (Enabled(s, steps[0]) && Runs(Apply(s, steps[0]), steps[1..]))
  }

  ghost function End(s: State, steps: seq<Step>): State
    requires Runs(s, steps)
    decreases |steps|
  {
    if steps == [] then s else End(Apply(s, steps[0]), steps[1..])
  }

  ghost predicate Reachable(s: State) {
    exists s0: State, steps: seq<Step> :: Init(s0) && Runs(s0, steps) && End(s0, steps) == s
  }

  /** What a step does, seen from outside: a won tail CAS, a won head CAS, or neither. */
  datatype Event = Enqueued(d: Data) | Dequeued(d: Data) | Silent

  function Observe(s: State, step: Step): Event
    requires Enabled(s, step)
  {
    if step.Advance? && s.thr[step.t].SwingTail? && s.tail == s.thr[step.t].seen then
      Enqueued(s.thr[step.t].d)
    else if step.Advance? && s.thr[step.t].SwingHead? && s.head == s.thr[step.t].seen then
      Dequeued(s.thr[step.t].d)
    else
      Silent
  }

  /** Data of the won tail swaps of a run, in order. */
  ghost function Enqueues(s: State, steps: seq<Step>): seq<Data>
    requires Runs(s, steps)
    decreases |steps|
  {
    if steps == [] then []
    else
      var rest := Enqueues(Apply(s, steps[0]), steps[1..]);
      match Observe(s, steps[0])
      case Enqueued(d) => [d] + rest
      case _ => rest
  }

  /** Data returned by the won head swaps of a run, in order. */
  ghost function Dequeues(s: State, steps: seq<Step>): seq<Data>
    requires Runs(s, steps)
    decreases |steps|
  {
    if steps == [] then []
    else
      var rest := Dequeues(Apply(s, steps[0]), steps[1..]);
      match Observe(s, steps[0])
      case Dequeued(d) => [d] + rest
      case _ => rest
  }
}
