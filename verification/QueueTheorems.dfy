/** What the CAS queue guarantees in every run, for any number of threads. */
module QueueTheorems {
  import opened Counting
  import opened LockFreeQueue
  import opened QueueInvariant
  import opened Wrappers

  // ----- FIFO -----

  /** The abstract queue: data of won tail swaps not yet taken. */
  ghost function Queued(s: State): seq<Data>
    requires First(s) <= Last(s)
  {
    seq(Last(s) - First(s), i requires 0 <= i < Last(s) - First(s) => s.chain[First(s) + 1 + i].data)
  }

  /** The sequential queue: what each event does to it. */
  ghost predicate QueueSpec(q: seq<Data>, e: Event, q': seq<Data>) {
    match e
    case Enqueued(d) => q' == q + [d]
    case Dequeued(d) => q == [d] + q'
    case Silent => q' == q
  }

  lemma RunInv(s: State, steps: seq<Step>)
    requires Inv(s) && Runs(s, steps)
    ensures Inv(End(s, steps))
    decreases |steps|
  {
    if steps != [] {
      StepInv(s, steps[0]);
      RunInv(Apply(s, steps[0]), steps[1..]);
    }
  }

  lemma ReachableInv(s: State)
    requires Reachable(s)
    ensures Inv(s)
  {
    var s0: State, steps: seq<Step> :| Init(s0) && Runs(s0, steps) && End(s0, steps) == s;
    InitInv(s0);
    RunInv(s0, steps);
  }

  /** Each step is one operation of the sequential queue or invisible: the tail CAS is the
      linearisation point of Enqueue, the head CAS that of Dequeue. */
  lemma StepRefines(s: State, step: Step)
    requires Inv(s) && Enabled(s, step)
    ensures Inv(Apply(s, step))
    ensures QueueSpec(Queued(s), Observe(s, step), Queued(Apply(s, step)))
  {
    StepInv(s, step);
    var s' := Apply(s, step);
    if step.Advance? {
      AdvanceRefines(s, step.t);
    } else {
      OthersSilent(s, step);
      QueuedSame(s, s');
    }
  }

  lemma OthersSilent(s: State, step: Step)
    requires Enabled(s, step) && !step.Advance?
    ensures Apply(s, step).chain == s.chain && Apply(s, step).taken == s.taken && Observe(s, step) == Silent
  {
  }

  lemma AdvanceRefines(s: State, t: Tid)
    requires Core(s) && Enabled(s, Advance(t)) && Shape(Move(s, t))
    ensures QueueSpec(Queued(s), Observe(s, Advance(t)), Queued(Move(s, t)))
  {
    assert LocalOk(s, t, s.thr[t]);
    var s' := Move(s, t);
    match Observe(s, Advance(t)) {
      case Enqueued(d) => QueuedAppend(s, s', d);
      case Dequeued(d) => QueuedPop(s, s', d);
      case Silent => QueuedSame(s, s');
    }
  }

  lemma QueuedAppend(s: State, s': State, d: Data)
    requires First(s) <= Last(s) && s'.taken == s.taken && |s'.chain| == |s.chain| + 1
    requires forall i :: 0 <= i < |s.chain| ==> s'.chain[i].data == s.chain[i].data
    requires s'.chain[|s.chain|].data == d
    ensures Queued(s') == Queued(s) + [d]
  {
  }

  lemma QueuedPop(s: State, s': State, d: Data)
    requires First(s) < Last(s) && s'.chain == s.chain && s'.taken == s.taken + [d]
    requires s.chain[First(s) + 1].data == d
    ensures Queued(s) == [d] + Queued(s')
  {
  }

  lemma QueuedSame(s: State, s': State)
    requires First(s) <= Last(s) && s'.taken == s.taken && |s'.chain| == |s.chain|
    requires forall i :: 0 <= i < |s.chain| ==> s'.chain[i].data == s.chain[i].data
    ensures Queued(s') == Queued(s)
  {
  }

  /** Over a whole run, what went in and what was there equals what came out and what is
      left, in order. */
  lemma {:induction false} Conservation(s: State, steps: seq<Step>)
    requires Inv(s) && Runs(s, steps)
    ensures Inv(End(s, steps))
    ensures Queued(s) + Enqueues(s, steps) == Dequeues(s, steps) + Queued(End(s, steps))
    decreases |steps|
  {
    if steps != [] {
      var s' := Apply(s, steps[0]);
      StepRefines(s, steps[0]);
      Conservation(s', steps[1..]);
      Splice(Queued(s), Observe(s, steps[0]), Queued(s'),
             Enqueues(s', steps[1..]), Dequeues(s', steps[1..]), Queued(End(s, steps)));
    }
  }

  /** The sequence algebra of one step of Conservation. */
  lemma Splice(q: seq<Data>, e: Event, q': seq<Data>, ins: seq<Data>, outs: seq<Data>, rest: seq<Data>)
    requires QueueSpec(q, e, q') && q' + ins == outs + rest
    ensures match e
            case Enqueued(d) => q + ([d] + ins) == outs + rest
            case Dequeued(d) => q + ins == ([d] + outs) + rest
            case Silent => q + ins == outs + rest
  {
    match e {
      case Enqueued(d) => assert q + ([d] + ins) == q' + ins;
      case Dequeued(d) =>
        assert q + ins == [d] + (q' + ins);
        assert ([d] + outs) + rest == [d] + (outs + rest);
      case Silent =>
    }
  }

  lemma NothingQueued(s0: State)
    requires Init(s0)
    ensures Inv(s0) && Queued(s0) == []
  {
    InitInv(s0);
  }

  /** The k-th won head swap of a run returns the data of the k-th won tail swap. */
  lemma Fifo(s0: State, steps: seq<Step>)
    requires Init(s0) && Runs(s0, steps)
    ensures Dequeues(s0, steps) <= Enqueues(s0, steps)
    ensures Inv(End(s0, steps))
    ensures Enqueues(s0, steps) == Dequeues(s0, steps) + Queued(End(s0, steps))
  {
    NothingQueued(s0);
    Conservation(s0, steps);
    assert [] + Enqueues(s0, steps) == Enqueues(s0, steps);
  }

  // ----- The two CASes that cannot miss -----

  /** The current tail has no successor, an enqueuer's link CAS finds null, and a dequeuer's
      helping CAS finds another tail. */
  lemma TailIsOpen(s: State, t: Tid)
    requires Reachable(s) && t in s.thr
    ensures s.tail.Tagged? && s.tail.adr in s.mem && s.mem[s.tail.adr].next == Null
    ensures s.thr[t].LinkPrev? ==>
      Enabled(s, Advance(t)) && Move(s, t).thr[t] == CountUp
      && Move(s, t).mem[s.thr[t].seen.adr].next == Tagged(s.thr[t].a, s.thr[t].acc)
    ensures s.thr[t].HelpSwing? ==> Enabled(s, Advance(t)) && Move(s, t).tail == s.tail
  {
    ReachableInv(s);
    assert LocalOk(s, t, s.thr[t]);
    if s.thr[t].LinkPrev? {
      LinkFindsNull(s, t);
    }
  }

  /** A step that changes the tail or the head installs a strictly larger tag. */
  lemma TagsOnlyGrow(s: State, step: Step)
    requires Reachable(s) && Enabled(s, step)
    ensures var s' := Apply(s, step);
      && s.tail.Tagged? && s'.tail.Tagged? && (s'.tail == s.tail || s.tail.tag < s'.tail.tag)
      && s.head.Tagged? && s'.head.Tagged? && (s'.head == s.head || s.head.tag < s'.head.tag)
  {
    ReachableInv(s);
    if step.Advance? {
      assert LocalOk(s, step.t, s.thr[step.t]);
    }
  }

  /** So once a tail or head value has been replaced it never comes back. */
  lemma {:induction false} NoRecurrence(s: State, steps: seq<Step>)
    requires Reachable(s) && Runs(s, steps)
    ensures var s' := End(s, steps);
      && s.tail.Tagged? && s'.tail.Tagged? && s.tail.tag <= s'.tail.tag && (s.tail.tag == s'.tail.tag ==> s.tail == s'.tail)
      && s.head.Tagged? && s'.head.Tagged? && s.head.tag <= s'.head.tag && (s.head.tag == s'.head.tag ==> s.head == s'.head)
    decreases |steps|
  {
    if steps == [] {
      ReachableInv(s);
    } else {
      TagsOnlyGrow(s, steps[0]);
      ReachableStep(s, steps[0]);
      NoRecurrence(Apply(s, steps[0]), steps[1..]);
    }
  }

  lemma ReachableStep(s: State, step: Step)
    requires Reachable(s) && Enabled(s, step)
    ensures Reachable(Apply(s, step))
  {
    var s0: State, steps: seq<Step> :| Init(s0) && Runs(s0, steps) && End(s0, steps) == s;
    RunsSnoc(s0, steps, step);
  }

  lemma {:induction false} RunsSnoc(s: State, steps: seq<Step>, last: Step)
    requires Runs(s, steps) && Enabled(End(s, steps), last)
    ensures Runs(s, steps + [last]) && End(s, steps + [last]) == Apply(End(s, steps), last)
    decreases |steps|
  {
    if steps == [] {
      assert Runs(Apply(s, last), []);
      assert [last][1..] == [];
    } else {
      RunsSnoc(Apply(s, steps[0]), steps[1..], last);
      assert (steps + [last])[1..] == steps[1..] + [last];
    }
  }

  /** No thread ever dereferences a pointer outside the node memory. */
  lemma NoWildAccess(s: State, t: Tid)
    requires Reachable(s) && t in s.thr
    ensures Grounded(s, s.thr[t])
  {
    ReachableInv(s);
    assert LocalOk(s, t, s.thr[t]);
    if s.thr[t].LinkPrev? {
      LinkFindsNull(s, t);
    }
  }

  // ----- Accounting and progress -----

  /** `_size` against the real length: every queued node is counted, or belongs to an enqueuer
      that has not counted it yet, a dequeuer that reserved it, or a dequeuer about to give
      back a reservation it should not have taken. */
  lemma SizeAccounts(s: State)
    requires Reachable(s)
    ensures First(s) <= Last(s)
    ensures |Queued(s)| == s.size + Count(s.thr, Claims) + Count(s.thr, Undoing)
    ensures |Queued(s)| >= Count(s.thr, Claims)
  {
    ReachableInv(s);
  }

  /** When a Dequeue reports an empty queue: exactly if, at its reservation, every queued node is
      matched by an operation in flight. */
  lemma EmptyVerdict(s: State, t: Tid)
    requires Reachable(s) && t in s.thr && s.thr[t] == Reserve
    ensures First(s) <= Last(s)
    ensures Move(s, t).thr[t] == Undo <==> |Queued(s)| <= Count(s.thr, Claims) + Count(s.thr, Undoing)
  {
    SizeAccounts(s);
  }

  /** When MAXLFQueue refuses an Enqueue: exactly if the queued nodes exceed the operations in
      flight by the limit. So a refusal is truthful: the queue holds at least limit nodes. */
  lemma RefusalVerdict(s: State, t: Tid)
    requires Reachable(s) && s.limit.Some? && t in s.thr && s.thr[t].CheckSize?
    ensures First(s) <= Last(s)
    ensures Move(s, t).thr[t] == Idle <==> |Queued(s)| >= s.limit.value + Count(s.thr, Claims) + Count(s.thr, Undoing)
    ensures Move(s, t).thr[t] == Idle ==> |Queued(s)| >= s.limit.value
  {
    SizeAccounts(s);
  }

  /** A reservation guarantees a queued node. */
  lemma ReservedFindsNode(s: State, t: Tid)
    requires Inv(s) && t in s.thr && Reserved(s.thr[t])
    ensures First(s) < Last(s)
  {
    CountPositive(s.thr, t, Claims);
  }

  ghost predicate HeadLinked(s: State) {
    s.head.Tagged? && s.head.adr in s.mem && s.mem[s.head.adr].next != Null
  }

  /** A reserved dequeuer that finds the head unlinked waits for one enqueuer, which stands
      between its two CASes and whose very next step ends the wait. */
  lemma WaitHasWaker(s: State, t: Tid) returns (u: Tid)
    requires Reachable(s) && t in s.thr && Reserved(s.thr[t]) && !HeadLinked(s)
    ensures u in s.thr && s.thr[u].LinkPrev? && s.thr[u].seen == s.head
    ensures Enabled(s, Advance(u)) && HeadLinked(Move(s, u)) && Move(s, u).head == s.head
    ensures u != t
  {
    ReachableInv(s);
    ReservedFindsNode(s, t);
    var c := First(s);
    assert LinkAt(s, c);
    u := s.chain[c].linker.value;
    assert LocalOk(s, u, s.thr[u]);
    LinkFindsNull(s, u);
  }

  /** n steps of thread t with nobody else moving. */
  ghost function Alone(s: State, t: Tid, n: nat): State
    decreases n
  {
    if n == 0 || !Enabled(s, Advance(t)) then s else Alone(Move(s, t), t, n - 1)
  }

  lemma HelpMoves(s: State, t: Tid, seen: Ptr)
    requires t in s.thr && s.thr[t] == TailNext(seen) && seen.Tagged? && seen.adr in s.mem
    requires s.mem[seen.adr].next != Null && s.tail != seen
    ensures Alone(s, t, 3) == Goto(s, t, FindTail)
  {
    var s1 := Goto(s, t, HelpRead(seen));
    var s2 := Goto(s1, t, HelpSwing(seen, s.mem[seen.adr].next));
    var s3 := Goto(s2, t, FindTail);
    assert s3.thr == s.thr[t := FindTail];
    AloneMoves(s, t, 2, s1);
    AloneMoves(s1, t, 1, s2);
    AloneMoves(s2, t, 0, s3);
  }

  lemma AloneMoves(s: State, t: Tid, n: nat, s': State)
    requires Enabled(s, Advance(t)) && s' == Move(s, t)
    ensures Alone(s, t, n + 1) == Alone(s', t, n)
  {
  }

  /** A dequeuer goes on to the head exactly if the tail it read has no successor; otherwise it tries
      to help, which changes nothing but that it reads the tail again. */
  lemma HelpingIsVain(s: State, t: Tid)
    requires Reachable(s) && t in s.thr && s.thr[t].TailNext?
    ensures var seen := s.thr[t].seen;
      && seen.Tagged? && seen.adr in s.mem && Enabled(s, Advance(t))
      && if s.mem[seen.adr].next == Null then Move(s, t) == Goto(s, t, FindHead)
         else Alone(s, t, 3) == Goto(s, t, FindTail)
  {
    ReachableInv(s);
    var seen := s.thr[t].seen;
    assert LocalOk(s, t, s.thr[t]);
    if s.mem[seen.adr].next != Null {
      HelpMoves(s, t, seen);
    }
  }

  /** How many own steps separate a reserved dequeuer from its head swap. */
  ghost function Rank(s: State, pc: Pc): nat {
    match pc
    case SwingHead(seen, _, _) => if seen == s.head then 1 else 7
    case ReadData(seen, _) => if seen == s.head then 2 else 8
    case HeadNext(seen) => if seen == s.head then 3 else 9
    case FindHead => 4
    case TailNext(seen) => if seen == s.tail then 5 else 9
    case FindTail => 6
    case HelpSwing(_, _) => 7
    case HelpRead(_) => 8
    case _ => 0
  }

  /** Thread t has just taken the oldest data of s and holds the old dummy. */
  ghost predicate TookOldest(s: State, s': State, t: Tid)
    requires First(s) < Last(s)
  {
    s.head.Tagged? && t in s'.thr && s'.thr[t] == Release(s.head.adr, Queued(s)[0])
  }

  /** A reserved dequeuer with a linked head in front of it. */
  ghost predicate Ready(s: State, t: Tid) {
    Core(s) && t in s.thr && Reserved(s.thr[t]) && HeadLinked(s) && First(s) < Last(s)
  }

  lemma SoloMove(s: State, t: Tid)
    requires Ready(s, t)
    ensures Enabled(s, Advance(t))
    ensures var s' := Move(s, t);
      || TookOldest(s, s', t)
      || (&& Reserved(s'.thr[t]) && Rank(s', s'.thr[t]) < Rank(s, s.thr[t])
          && s'.head == s.head && HeadLinked(s') && s'.chain == s.chain && s'.taken == s.taken)
  {
    assert LocalOk(s, t, s.thr[t]);
    assert LinkAt(s, First(s));
    assert LiveAt(s, First(s) + 1);
  }

  lemma SoloStep(s: State, t: Tid)
    requires Ready(s, t)
    ensures Enabled(s, Advance(t))
    ensures var s' := Move(s, t);
      || TookOldest(s, s', t)
      || (&& Ready(s', t) && Rank(s', s'.thr[t]) < Rank(s, s.thr[t])
          && s'.head == s.head && Queued(s') == Queued(s))
  {
    SoloMove(s, t);
    MoveCore(s, t);
    if !TookOldest(s, Move(s, t), t) {
      QueuedSame(s, Move(s, t));
    }
  }

  /** Whatever stale values it holds, a reserved dequeuer that runs alone while the head is
      linked returns the oldest queued data within nine steps. */
  lemma {:induction false} SoloDequeue(s: State, t: Tid) returns (n: nat)
    requires Ready(s, t)
    ensures n <= Rank(s, s.thr[t]) <= 9
    ensures TookOldest(s, Alone(s, t, n), t)
    decreases Rank(s, s.thr[t])
  {
    SoloStep(s, t);
    var s' := Move(s, t);
    if TookOldest(s, s', t) {
      n := 1;
      assert Alone(s, t, 1) == Alone(s', t, 0);
    } else {
      n := SoloDequeue(s', t);
      n := n + 1;
      assert Alone(s, t, n) == Alone(s', t, n - 1);
    }
  }

  /** No deadlock: from every reachable state, at most one step of one enqueuer and nine of its
      own let any reserved dequeuer finish. */
  lemma NoDeadlock(s: State, t: Tid) returns (u: Tid, n: nat)
    requires Reachable(s) && t in s.thr && Reserved(s.thr[t])
    ensures First(s) < Last(s) && n <= 9
    ensures HeadLinked(s) ==> TookOldest(s, Alone(s, t, n), t)
    ensures !HeadLinked(s) ==>
      && Enabled(s, Advance(u)) && s.thr[u].LinkPrev?
      && TookOldest(s, Alone(Move(s, u), t, n), t)
  {
    ReachableInv(s);
    ReservedFindsNode(s, t);
    u := t;
    if HeadLinked(s) {
      n := SoloDequeue(s, t);
    } else {
      u := WaitHasWaker(s, t);
      var s' := Move(s, u);
      MoveCore(s, u);
      QueuedSame(s, s');
      n := SoloDequeue(s', t);
    }
  }

  /** MAXLFQueue: the test of `_size` and the tail swap are separate steps, so with T threads
      both `_size` and the real length may exceed the limit, but only by T - 1. */
  lemma BoundedLength(s: State)
    requires Reachable(s) && s.limit.Some?
    ensures First(s) <= Last(s)
    ensures s.size <= Bound(s) && |Queued(s)| <= Bound(s)
    ensures s.limit.value >= 0 && |s.thr| >= 1 ==> Bound(s) == s.limit.value + |s.thr| - 1
  {
    ReachableInv(s);
    CountMonotone(s.thr, Claims, Busy);
  }

  /** No node is lost or in two places: each is in the pool, at exactly one position of the
      chain, or in the hands of exactly one running call. */
  lemma NodesAccountedFor(s: State, a: Addr)
    requires Reachable(s) && a in s.mem && s.mem[a].owner != InPool
    ensures First(s) <= Last(s)
    ensures match s.mem[a].owner
            case InPool => false
            case HeldBy(t) => t in s.thr && Holds(s.thr[t]) == Some(a)
            case InChain(k) =>
              && First(s) <= k <= Last(s)
              && forall i :: First(s) <= i <= Last(s) ==> (s.chain[i].ptr.Tagged? && (s.chain[i].ptr.adr == a <==> i == k))
  {
    ReachableInv(s);
    assert Owned(s, a);
    forall i | First(s) <= i <= Last(s)
      ensures s.chain[i].ptr.Tagged?
      ensures s.mem[a].owner.InChain? ==> (s.chain[i].ptr.adr == a <==> i == s.mem[a].owner.pos)
    {
      assert LiveAt(s, i);
    }
  }

  /** With no call running, `_size` is the number of queued nodes and every node is in the pool
      or in the chain. */
  lemma Quiescent(s: State)
    requires Reachable(s) && forall t :: t in s.thr ==> s.thr[t] == Idle
    ensures First(s) <= Last(s) && |Queued(s)| == s.size
    ensures forall a :: a in s.mem ==> !s.mem[a].owner.HeldBy?
  {
    ReachableInv(s);
    CountZero(s.thr, Claims);
    CountZero(s.thr, Undoing);
    forall a | a in s.mem ensures !s.mem[a].owner.HeldBy? {
      assert Owned(s, a);
    }
  }
}
