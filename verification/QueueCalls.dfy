/** What the callers of the CAS queue see. Every thread follows a fixed protocol, whatever the others
    do: an Enqueue returns only after one won swap of its own data, or refused by the size it read; a
    Dequeue returns data only after the swap that took them, and reports an empty queue only because
    of the size it read, however long it then has to wait for a link. */
module QueueCalls {
  import opened Counting
  import opened LockFreeQueue
  import opened QueueInvariant
  import opened QueueTags
  import opened QueueTheorems
  import opened QueueWrap
  import opened Wrappers

  datatype Answer = Done | Refused(d: Data) | Got(d: Data) | Empty

  /** What a caller can see of its thread: calls begin and return, and in between `_size` is read
      and swaps are won. */
  datatype Act =
    | BeginEnqueue(d: Data)
    | BeginDequeue
    | ReadSize(n: int)
    | Won(e: Event)
    | Returned(a: Answer)

  /** What a call returns when it ends at this program counter. */
  function AnswerOf(pc: Pc): Answer {
    match pc
    case CheckSize(d) => Refused(d)
    case Undo => Empty
    case Release(_, d) => Got(d)
    case _ => Done
  }

  function OwnActs(s: State, t: Tid): seq<Act>
    requires Enabled(s, Advance(t))
  {
    (if s.thr[t].CheckSize? || s.thr[t] == Reserve then [ReadSize(s.size)] else [])
    + (if Observe(s, Advance(t)) != Silent then [Won(Observe(s, Advance(t)))] else [])
    + (if Move(s, t).thr[t] == Idle then [Returned(AnswerOf(s.thr[t]))] else [])
  }

  function ActsOf(s: State, step: Step, t: Tid): seq<Act>
    requires Enabled(s, step)
  {
    match step
    case StartEnqueue(u, d) => if u == t then [BeginEnqueue(d)] else []
    case StartDequeue(u) => if u == t then [BeginDequeue] else []
    case Advance(u) => if u == t then OwnActs(s, t) else []
    case _ => []
  }

  /** The acts of thread t in a run. */
  ghost function Acts(s: State, steps: seq<Step>, t: Tid): seq<Act>
    requires Runs(s, steps)
    decreases |steps|
  {
    if steps == [] then [] else ActsOf(s, steps[0], t) + Acts(Apply(s, steps[0]), steps[1..], t)
  }

  // ----- The protocol -----

  datatype Phase =
    | Outside
    | Asked(d: Data)
    | Refusing(d: Data)
    | Putting(d: Data)
    | Put
    | Asking
    | Failing
    | Taking
    | Took(d: Data)

  function Next(limit: Option<int>, phase: Phase, act: Act): Option<Phase> {
    match (phase, act)
    case (Outside, BeginEnqueue(d)) => Some(if limit.Some? then Asked(d) else Putting(d))
    case (Asked(d), ReadSize(n)) => Some(if limit.Some? && n >= limit.value then Refusing(d) else Putting(d))
    case (Refusing(d), Returned(a)) => if a == Refused(d) then Some(Outside) else None
    case (Putting(d), Won(e)) => if e == Enqueued(d) then Some(Put) else None
    case (Put, Returned(a)) => if a == Done then Some(Outside) else None
    case (Outside, BeginDequeue) => Some(Asking)
    case (Asking, ReadSize(n)) => Some(if n >= 1 then Taking else Failing)
    case (Failing, Returned(a)) => if a == Empty then Some(Outside) else None
    case (Taking, Won(e)) => if e.Dequeued? then Some(Took(e.d)) else None
    case (Took(d), Returned(a)) => if a == Got(d) then Some(Outside) else None
    case _ => None
  }

  function Follow(limit: Option<int>, phase: Phase, acts: seq<Act>): Option<Phase>
    decreases |acts|
  {
    if acts == [] then Some(phase)
    else match Next(limit, phase, acts[0])
      case None => None
      case Some(p) => Follow(limit, p, acts[1..])
  }

  function PhaseOf(pc: Pc): Phase {
    match pc
    case Idle => Outside
    case CheckSize(d) => Asked(d)
    case NeedNode(d) => Putting(d)
    case WriteData(_, d) => Putting(d)
    case WriteNull(_, d) => Putting(d)
    case ReadTail(_, d, _) => Putting(d)
    case SwingTail(_, d, _, _) => Putting(d)
    case LinkPrev(_, _, _, _, _) => Put
    case CountUp => Put
    case Reserve => Asking
    case Undo => Failing
    case Release(_, d) => Took(d)
    case _ => Taking
  }

  function PhaseAt(s: State, t: Tid): Phase {
    if t in s.thr then PhaseOf(s.thr[t]) else Outside
  }

  /** The link CAS of t, if that is its next step, finds null. */
  predicate LinkOpen(s: State, t: Tid) {
    t in s.thr && s.thr[t].LinkPrev? ==>
      var seen := s.thr[t].seen; seen.Tagged? && seen.adr in s.mem && s.mem[seen.adr].next == Null
  }

  lemma TestFollows(s: State, t: Tid)
    requires Enabled(s, Advance(t)) && s.thr[t].CheckSize?
    ensures Follow(s.limit, PhaseAt(s, t), OwnActs(s, t)) == Some(PhaseAt(Move(s, t), t))
  {
    var acts := OwnActs(s, t);
    if Move(s, t).thr[t] == Idle {
      var answer := Returned(Refused(s.thr[t].d));
      assert acts == [ReadSize(s.size), answer] && acts[1..] == [answer];
      assert [answer][1..] == [];
      assert Follow(s.limit, Refusing(s.thr[t].d), [answer]) == Some(Outside);
    } else {
      assert acts == [ReadSize(s.size)];
    }
  }

  lemma PutFollows(s: State, t: Tid)
    requires Enabled(s, Advance(t)) && LinkOpen(s, t) && (PhaseOf(s.thr[t]).Putting? || PhaseOf(s.thr[t]).Put?)
    ensures Follow(s.limit, PhaseAt(s, t), OwnActs(s, t)) == Some(PhaseAt(Move(s, t), t))
  {
  }

  lemma TakeFollows(s: State, t: Tid)
    requires Enabled(s, Advance(t)) && Reserved(s.thr[t])
    ensures Follow(s.limit, PhaseAt(s, t), OwnActs(s, t)) == Some(PhaseAt(Move(s, t), t))
  {
    ReservedNext(s, t);
  }

  lemma OwnStepFollows(s: State, t: Tid)
    requires Enabled(s, Advance(t)) && LinkOpen(s, t)
    ensures Follow(s.limit, PhaseAt(s, t), OwnActs(s, t)) == Some(PhaseAt(Move(s, t), t))
  {
    match PhaseOf(s.thr[t]) {
      case Asked(_) => TestFollows(s, t);
      case Putting(_) => PutFollows(s, t);
      case Put => PutFollows(s, t);
      case Taking => TakeFollows(s, t);
      case _ =>
    }
  }

  lemma StartFollows(s: State, step: Step, t: Tid)
    requires Enabled(s, step) && !step.Advance?
    ensures Follow(s.limit, PhaseAt(s, t), ActsOf(s, step, t)) == Some(PhaseAt(Apply(s, step), t))
    ensures Apply(s, step).limit == s.limit
  {
  }

  lemma LimitStays(s: State, t: Tid)
    requires Enabled(s, Advance(t))
    ensures Move(s, t).limit == s.limit
  {
  }

  lemma StepFollows(s: State, step: Step, t: Tid)
    requires Inv(s) && Enabled(s, step)
    ensures Follow(s.limit, PhaseAt(s, t), ActsOf(s, step, t)) == Some(PhaseAt(Apply(s, step), t))
    ensures Apply(s, step).limit == s.limit
  {
    if !step.Advance? {
      StartFollows(s, step, t);
    } else {
      LimitStays(s, step.t);
      if step.t == t {
        if s.thr[t].LinkPrev? {
          LinkFindsNull(s, t);
        }
        OwnStepFollows(s, t);
      } else {
        OthersStand(s, step.t, t);
      }
    }
  }

  lemma {:induction false} FollowConcat(limit: Option<int>, phase: Phase, a: seq<Act>, b: seq<Act>)
    requires Follow(limit, phase, a).Some?
    ensures Follow(limit, phase, a + b) == Follow(limit, Follow(limit, phase, a).value, b)
    decreases |a|
  {
    if a == [] {
      assert a + b == b;
    } else {
      FollowConcat(limit, Next(limit, phase, a[0]).value, a[1..], b);
      assert (a + b)[1..] == a[1..] + b;
    }
  }

  /** In every run the acts of every thread follow the protocol, which ends where the thread
      stands. */
  lemma {:induction false} CallsFollow(s: State, steps: seq<Step>, t: Tid)
    requires Inv(s) && Runs(s, steps)
    ensures Follow(s.limit, PhaseAt(s, t), Acts(s, steps, t)) == Some(PhaseAt(End(s, steps), t))
    decreases |steps|
  {
    if steps != [] {
      StepFollows(s, steps[0], t);
      StepInv(s, steps[0]);
      CallsFollow(Apply(s, steps[0]), steps[1..], t);
      FollowConcat(s.limit, PhaseAt(s, t), ActsOf(s, steps[0], t), Acts(Apply(s, steps[0]), steps[1..], t));
    }
  }

  lemma ReservedNext(s: State, t: Tid)
    requires Enabled(s, Advance(t)) && Reserved(s.thr[t])
    ensures var e, s' := Observe(s, Advance(t)), Move(s, t);
      && t in s'.thr
      && if e == Silent then Reserved(s'.thr[t]) else e.Dequeued? && s'.thr[t].Release? && s'.thr[t].d == e.d
  {
  }

  /** A dequeuer past the size test, whether the head is linked or not: its step leaves it past the
      test and changes nothing that can be seen, or takes the oldest data, which it then returns. */
  lemma ReservedSucceeds(s: State, t: Tid)
    requires Reachable(s) && t in s.thr && Reserved(s.thr[t])
    ensures Enabled(s, Advance(t)) && First(s) < Last(s)
    ensures var e, s' := Observe(s, Advance(t)), Move(s, t);
      && t in s'.thr
      && if e == Silent then Reserved(s'.thr[t])
         else e == Dequeued(Queued(s)[0]) && s'.thr[t].Release? && s'.thr[t].d == Queued(s)[0]
  {
    NoWildAccess(s, t);
    ReachableInv(s);
    ReservedFindsNode(s, t);
    ReservedNext(s, t);
    StepRefines(s, Advance(t));
  }

  predicate Begins(act: Act) {
    act.BeginEnqueue? || act.BeginDequeue?
  }

  /** The acts of a single call. */
  predicate OneCall(acts: seq<Act>) {
    acts != [] && forall i :: 1 <= i < |acts| ==> !Begins(acts[i])
  }

  lemma NothingOutside(limit: Option<int>, acts: seq<Act>)
    requires Follow(limit, Outside, acts) == Some(Outside) && (acts != [] ==> !Begins(acts[0]))
    ensures acts == []
  {
  }

  lemma OneMore(limit: Option<int>, phase: Phase, acts: seq<Act>)
    requires Follow(limit, phase, acts) == Some(Outside) && (phase != Outside || acts != [])
    ensures acts != [] && Next(limit, phase, acts[0]).Some?
    ensures Follow(limit, Next(limit, phase, acts[0]).value, acts[1..]) == Some(Outside)
  {
  }

  lemma PutActs(limit: Option<int>, d: Data, acts: seq<Act>)
    requires Follow(limit, Putting(d), acts) == Some(Outside) && forall i :: 0 <= i < |acts| ==> !Begins(acts[i])
    ensures acts == [Won(Enqueued(d)), Returned(Done)]
  {
    OneMore(limit, Putting(d), acts);
    OneMore(limit, Put, acts[1..]);
    NothingOutside(limit, acts[1..][1..]);
  }

  lemma AskedActs(limit: Option<int>, d: Data, acts: seq<Act>)
    requires limit.Some? && Follow(limit, Asked(d), acts) == Some(Outside)
    requires forall i :: 0 <= i < |acts| ==> !Begins(acts[i])
    ensures |acts| >= 2 && acts[0].ReadSize?
    ensures acts == [acts[0]] + if acts[0].n >= limit.value then [Returned(Refused(d))]
                                else [Won(Enqueued(d)), Returned(Done)]
  {
    OneMore(limit, Asked(d), acts);
    if acts[0].n >= limit.value {
      OneMore(limit, Refusing(d), acts[1..]);
      NothingOutside(limit, acts[1..][1..]);
    } else {
      PutActs(limit, d, acts[1..]);
    }
  }

  lemma FailActs(limit: Option<int>, acts: seq<Act>)
    requires Follow(limit, Failing, acts) == Some(Outside) && forall i :: 0 <= i < |acts| ==> !Begins(acts[i])
    ensures acts == [Returned(Empty)]
  {
    OneMore(limit, Failing, acts);
    NothingOutside(limit, acts[1..]);
  }

  lemma GotActs(limit: Option<int>, acts: seq<Act>)
    requires Follow(limit, Taking, acts) == Some(Outside) && forall i :: 0 <= i < |acts| ==> !Begins(acts[i])
    ensures acts != [] && acts[0].Won? && acts[0].e.Dequeued? && acts == [acts[0], Returned(Got(acts[0].e.d))]
  {
    OneMore(limit, Taking, acts);
    OneMore(limit, Took(acts[0].e.d), acts[1..]);
    NothingOutside(limit, acts[1..][1..]);
  }

  lemma TakeActs(limit: Option<int>, acts: seq<Act>)
    requires Follow(limit, Asking, acts) == Some(Outside) && forall i :: 0 <= i < |acts| ==> !Begins(acts[i])
    ensures |acts| >= 2 && acts[0].ReadSize?
    ensures acts[0].n < 1 ==> acts == [acts[0], Returned(Empty)]
    ensures acts[0].n >= 1 ==>
      acts[1].Won? && acts[1].e.Dequeued? && acts == [acts[0], acts[1], Returned(Got(acts[1].e.d))]
  {
    OneMore(limit, Asking, acts);
    if acts[0].n < 1 {
      FailActs(limit, acts[1..]);
    } else {
      GotActs(limit, acts[1..]);
    }
  }

  /** A whole Enqueue call: it returns after one won swap, of the data it was called with, unless
      the queue is bounded and the size it read has reached the limit. */
  lemma EnqueueCall(s: State, steps: seq<Step>, t: Tid, d: Data)
    requires Inv(s) && Runs(s, steps) && PhaseAt(s, t) == Outside && PhaseAt(End(s, steps), t) == Outside
    requires OneCall(Acts(s, steps, t)) && Acts(s, steps, t)[0] == BeginEnqueue(d)
    ensures var acts := Acts(s, steps, t)[1..];
      if s.limit.None? then acts == [Won(Enqueued(d)), Returned(Done)]
      else
        && acts != [] && acts[0].ReadSize?
        && acts == [acts[0]] + if acts[0].n >= s.limit.value then [Returned(Refused(d))]
                               else [Won(Enqueued(d)), Returned(Done)]
  {
    CallsFollow(s, steps, t);
    OneMore(s.limit, Outside, Acts(s, steps, t));
    if s.limit.None? {
      PutActs(s.limit, d, Acts(s, steps, t)[1..]);
    } else {
      AskedActs(s.limit, d, Acts(s, steps, t)[1..]);
    }
  }

  /** A whole Dequeue call: it reports an empty queue if and only if the size it read was below one,
      and otherwise returns the data of its one won swap. */
  lemma DequeueCall(s: State, steps: seq<Step>, t: Tid)
    requires Inv(s) && Runs(s, steps) && PhaseAt(s, t) == Outside && PhaseAt(End(s, steps), t) == Outside
    requires OneCall(Acts(s, steps, t)) && Acts(s, steps, t)[0] == BeginDequeue
    ensures var acts := Acts(s, steps, t)[1..];
      && |acts| >= 2 && acts[0].ReadSize?
      && (acts[0].n < 1 ==> acts == [acts[0], Returned(Empty)])
      && (acts[0].n >= 1 ==>
            acts[1].Won? && acts[1].e.Dequeued? && acts == [acts[0], acts[1], Returned(Got(acts[1].e.d))])
  {
    CallsFollow(s, steps, t);
    OneMore(s.limit, Outside, Acts(s, steps, t));
    TakeActs(s.limit, Acts(s, steps, t)[1..]);
  }

  // ----- Nothing dropped, over all threads -----

  /** Data of the Enqueue calls begun and refused, of the swaps won, and of the Dequeue calls that
      returned data. */
  datatype Tally = Tally(begun: multiset<Data>, refused: multiset<Data>, put: multiset<Data>, taken: multiset<Data>,
                         got: multiset<Data>)

  const NOTHING := Tally(multiset{}, multiset{}, multiset{}, multiset{}, multiset{})

  function Plus(a: Tally, b: Tally): Tally {
    Tally(a.begun + b.begun, a.refused + b.refused, a.put + b.put, a.taken + b.taken, a.got + b.got)
  }

  function ActTally(act: Act): Tally {
    match act
    case BeginEnqueue(d) => NOTHING.(begun := multiset{d})
    case Won(Enqueued(d)) => NOTHING.(put := multiset{d})
    case Won(Dequeued(d)) => NOTHING.(taken := multiset{d})
    case Returned(Refused(d)) => NOTHING.(refused := multiset{d})
    case Returned(Got(d)) => NOTHING.(got := multiset{d})
    case _ => NOTHING
  }

  function TallyOf(acts: seq<Act>): Tally
    decreases |acts|
  {
    if acts == [] then NOTHING else Plus(ActTally(acts[0]), TallyOf(acts[1..]))
  }

  /** The acts of the thread that makes the step, if a thread does. */
  function StepActs(s: State, step: Step): seq<Act>
    requires Enabled(s, step)
  {
    if step.Carve? || step.Scribble? then [] else ActsOf(s, step, step.t)
  }

  /** The tally of all threads' acts in a run. */
  ghost function RunTally(s: State, steps: seq<Step>): Tally
    requires Runs(s, steps)
    decreases |steps|
  {
    if steps == [] then NOTHING
    else Plus(TallyOf(StepActs(s, steps[0])), RunTally(Apply(s, steps[0]), steps[1..]))
  }

  /** Before its swap, or refused, an Enqueue call still owes its data. */
  predicate Owes(phase: Phase, d: Data) {
    phase == Asked(d) || phase == Refusing(d) || phase == Putting(d)
  }

  lemma NextPuts(limit: Option<int>, phase: Phase, act: Act, d: Data)
    requires Next(limit, phase, act).Some?
    ensures var phase', a := Next(limit, phase, act).value, ActTally(act);
      Bit(Owes(phase, d)) + a.begun[d] == a.put[d] + a.refused[d] + Bit(Owes(phase', d))
  {
  }

  lemma NextTakes(limit: Option<int>, phase: Phase, act: Act, d: Data)
    requires Next(limit, phase, act).Some?
    ensures var phase', a := Next(limit, phase, act).value, ActTally(act);
      Bit(phase == Took(d)) + a.taken[d] == a.got[d] + Bit(phase' == Took(d))
  {
  }

  /** What the protocol owes between two phases, for data d. */
  lemma {:induction false} FollowTally(limit: Option<int>, phase: Phase, acts: seq<Act>, d: Data)
    requires Follow(limit, phase, acts).Some?
    ensures var phase', a := Follow(limit, phase, acts).value, TallyOf(acts);
      && Bit(Owes(phase, d)) + a.begun[d] == a.put[d] + a.refused[d] + Bit(Owes(phase', d))
      && Bit(phase == Took(d)) + a.taken[d] == a.got[d] + Bit(phase' == Took(d))
    decreases |acts|
  {
    if acts != [] {
      NextPuts(limit, phase, acts[0], d);
      NextTakes(limit, phase, acts[0], d);
      FollowTally(limit, Next(limit, phase, acts[0]).value, acts[1..], d);
    }
  }

  /** Threads that still have to enqueue d. */
  ghost function ToPut(d: Data): Pc -> bool {
    (pc: Pc) => Owes(PhaseOf(pc), d)
  }

  /** Threads that have dequeued d and not returned it yet. */
  ghost function ToReturn(d: Data): Pc -> bool {
    (pc: Pc) => PhaseOf(pc) == Took(d)
  }

  ghost predicate Balanced(d: Data, s: State, a: Tally, s': State) {
    && Count(s.thr, ToPut(d)) + a.begun[d] == a.put[d] + a.refused[d] + Count(s'.thr, ToPut(d))
    && Count(s.thr, ToReturn(d)) + a.taken[d] == a.got[d] + Count(s'.thr, ToReturn(d))
  }

  /** Only the thread that makes a step changes its program counter. */
  lemma OneThreadMoves(s: State, step: Step)
    requires Enabled(s, step)
    ensures step.Carve? || step.Scribble? ==> Apply(s, step).thr == s.thr
    ensures !(step.Carve? || step.Scribble?) ==>
      step.t in Apply(s, step).thr && Apply(s, step).thr == s.thr[step.t := Apply(s, step).thr[step.t]]
    ensures step.Spawn? ==> step.t !in s.thr && Apply(s, step).thr[step.t] == Idle
    ensures !(step.Carve? || step.Scribble? || step.Spawn?) ==> step.t in s.thr
  {
  }

  lemma StepBalanced(s: State, step: Step, d: Data)
    requires Inv(s) && Enabled(s, step)
    ensures Balanced(d, s, TallyOf(StepActs(s, step)), Apply(s, step))
  {
    OneThreadMoves(s, step);
    if step.Spawn? {
      CountSpawn(s.thr, step.t, Idle, ToPut(d));
      CountSpawn(s.thr, step.t, Idle, ToReturn(d));
    } else if !step.Carve? && !step.Scribble? {
      StepFollows(s, step, step.t);
      FollowTally(s.limit, PhaseAt(s, step.t), StepActs(s, step), d);
      CountUpdate(s.thr, step.t, Apply(s, step).thr[step.t], ToPut(d));
      CountUpdate(s.thr, step.t, Apply(s, step).thr[step.t], ToReturn(d));
    }
  }

  /** Over any run, for every data value: the Enqueue calls begun with it are the won tail swaps of
      it, those refused and those still under way, and the won head swaps of it are the Dequeue
      calls that returned it and those about to. */
  lemma {:induction false} NothingDropped(s: State, steps: seq<Step>, d: Data)
    requires Inv(s) && Runs(s, steps)
    ensures Balanced(d, s, RunTally(s, steps), End(s, steps))
    decreases |steps|
  {
    if steps != [] {
      StepBalanced(s, steps[0], d);
      StepInv(s, steps[0]);
      NothingDropped(Apply(s, steps[0]), steps[1..], d);
    }
  }

  // ----- Progress of an Enqueue -----

  /** An Enqueue that has its node. */
  predicate HasNode(pc: Pc) {
    (PhaseOf(pc).Putting? && !pc.NeedNode?) || PhaseOf(pc).Put?
  }

  /** How many own steps separate it from its end while nobody else moves. */
  function StepsLeft(tail: Ptr, pc: Pc): nat {
    match pc
    case CountUp => 1
    case LinkPrev(_, _, _, _, _) => 2
    case SwingTail(_, _, _, seen) => if seen == tail then 3 else 5
    case ReadTail(_, _, _) => 4
    case WriteNull(_, _) => 5
    case _ => 6
  }

  /** What it still adds to the queue. */
  ghost function Owed(pc: Pc): seq<Data> {
    if PhaseOf(pc).Putting? then [PhaseOf(pc).d] else []
  }

  /** The next step of an enqueuer: to its end, or nearer to it. */
  ghost predicate Nearer(s: State, t: Tid)
    requires t in s.thr && HasNode(s.thr[t]) && Enabled(s, Advance(t))
  {
    var s', pc := Move(s, t), s.thr[t];
    && t in s'.thr
    && if pc.CountUp? then s'.thr[t] == Idle && s'.size == s.size + 1
       else HasNode(s'.thr[t]) && StepsLeft(s'.tail, s'.thr[t]) < StepsLeft(s.tail, pc) && s'.size == s.size
  }

  lemma FillNearer(s: State, t: Tid)
    requires Enabled(s, Advance(t)) && (s.thr[t].WriteData? || s.thr[t].WriteNull? || s.thr[t].ReadTail?)
    ensures Nearer(s, t)
  {
  }

  lemma SwingNearer(s: State, t: Tid)
    requires Enabled(s, Advance(t)) && s.thr[t].SwingTail?
    ensures Nearer(s, t)
  {
  }

  lemma LinkNearer(s: State, t: Tid)
    requires Enabled(s, Advance(t)) && LinkOpen(s, t) && (s.thr[t].LinkPrev? || s.thr[t].CountUp?)
    ensures Nearer(s, t)
  {
  }

  lemma EnqueueMoves(s: State, t: Tid)
    requires Inv(s) && t in s.thr && HasNode(s.thr[t]) && LinkOpen(s, t)
    ensures Enabled(s, Advance(t)) && Nearer(s, t)
  {
    assert LocalOk(s, t, s.thr[t]);
    if PhaseOf(s.thr[t]).Put? {
      LinkNearer(s, t);
    } else if s.thr[t].SwingTail? {
      SwingNearer(s, t);
    } else {
      FillNearer(s, t);
    }
  }

  lemma OwedNext(s: State, t: Tid)
    requires Enabled(s, Advance(t)) && HasNode(s.thr[t]) && LinkOpen(s, t)
    ensures t in Move(s, t).thr
    ensures match Observe(s, Advance(t))
      case Enqueued(d) => Owed(s.thr[t]) == [d] && Owed(Move(s, t).thr[t]) == []
      case Dequeued(_) => false
      case Silent => Owed(Move(s, t).thr[t]) == Owed(s.thr[t])
  {
  }

  lemma EnqueueOwes(s: State, t: Tid)
    requires Inv(s) && Enabled(s, Advance(t)) && HasNode(s.thr[t]) && LinkOpen(s, t)
    ensures Inv(Move(s, t)) && t in Move(s, t).thr
    ensures Queued(s) + Owed(s.thr[t]) == Queued(Move(s, t)) + Owed(Move(s, t).thr[t])
  {
    StepRefines(s, Advance(t));
    OwedNext(s, t);
  }

  lemma EnqueuerFindsNull(s: State, t: Tid)
    requires Inv(s)
    ensures LinkOpen(s, t)
  {
    if t in s.thr && s.thr[t].LinkPrev? {
      LinkFindsNull(s, t);
    }
  }

  /** The call of t has ended, and its data are queued and counted. */
  ghost predicate Finished(s: State, s': State, t: Tid)
    requires t in s.thr && First(s) <= Last(s)
  {
    && t in s'.thr && s'.thr[t] == Idle && s'.size == s.size + 1
    && First(s') <= Last(s') && Queued(s') == Queued(s) + Owed(s.thr[t])
  }

  /** It has not ended, and owes the same queue. */
  ghost predicate OwesSame(s: State, s': State, t: Tid)
    requires t in s.thr && t in s'.thr && First(s) <= Last(s) && First(s') <= Last(s')
  {
    s'.size == s.size && Queued(s) + Owed(s.thr[t]) == Queued(s') + Owed(s'.thr[t])
  }

  lemma FinishedLater(s: State, s1: State, s': State, t: Tid)
    requires t in s.thr && t in s1.thr && First(s) <= Last(s) && First(s1) <= Last(s1)
    requires OwesSame(s, s1, t) && Finished(s1, s', t)
    ensures Finished(s, s', t)
  {
  }

  lemma EnqueueStep(s: State, t: Tid) returns (s': State)
    requires Inv(s) && t in s.thr && HasNode(s.thr[t])
    ensures Enabled(s, Advance(t)) && s' == Move(s, t) && Inv(s') && t in s'.thr
    ensures if s.thr[t].CountUp? then Finished(s, s', t)
            else HasNode(s'.thr[t]) && StepsLeft(s'.tail, s'.thr[t]) < StepsLeft(s.tail, s.thr[t]) && OwesSame(s, s', t)
  {
    EnqueuerFindsNull(s, t);
    EnqueueMoves(s, t);
    EnqueueOwes(s, t);
    s' := Move(s, t);
    if s.thr[t].CountUp? {
      assert Queued(s) + [] == Queued(s) && Queued(s') + [] == Queued(s');
    }
  }

  /** Whatever stale values it holds, an Enqueue that runs alone ends within six steps, with its data
      at the end of the queue and counted. */
  lemma {:induction false} EnqueueCanFinish(s: State, t: Tid) returns (n: nat)
    requires Inv(s) && t in s.thr && HasNode(s.thr[t])
    ensures n <= StepsLeft(s.tail, s.thr[t]) <= 6 && Finished(s, Alone(s, t, n), t)
    decreases StepsLeft(s.tail, s.thr[t])
  {
    var s' := EnqueueStep(s, t);
    if s.thr[t].CountUp? {
      AloneMoves(s, t, 0, s');
      n := 1;
    } else {
      n := EnqueueCanFinish(s', t);
      FinishedLater(s, s', Alone(s', t, n), t);
      AloneMoves(s, t, n, s');
      n := n + 1;
    }
  }

  // ----- With tags of a fixed width -----

  lemma OwnActsTrack(b: nat, s: State, m: State, t: Tid)
    requires Enabled(m, Advance(t)) && Enabled(s, Advance(t)) && m.thr[t] == CutPc(b, s.thr[t]) && m.size == s.size
    requires t in Move(m, t).thr && t in Move(s, t).thr && Move(m, t).thr[t] == CutPc(b, Move(s, t).thr[t])
    requires Observe(m, Advance(t)) == Observe(s, Advance(t))
    ensures OwnActs(m, t) == OwnActs(s, t)
  {
  }

  lemma ActsTrack(b: nat, s: State, m: State, step: Step, t: Tid)
    requires Tracks(b, s, m) && Enabled(m, step) && Enabled(s, step)
    requires Tracks(b, Apply(s, step), Apply(m, step)) && Observe(m, step) == Observe(s, step)
    ensures ActsOf(m, step, t) == ActsOf(s, step, t)
  {
    if step == Advance(t) {
      MoveSeen(s, t);
      OwnActsTrack(b, s, m, t);
    }
  }

  lemma {:induction false} ShadowActs(b: nat, s: State, m: State, steps: seq<Step>, t: Tid)
    requires Inv(s) && Tracks(b, s, m) && Held(b, s) && Runs(m, steps) && FreshRun(m, steps)
    ensures Runs(s, steps) && Acts(m, steps, t) == Acts(s, steps, t)
    decreases |steps|
  {
    if steps != [] {
      StepTracks(b, s, m, steps[0]);
      HeldStep(b, s, m, steps[0]);
      StepInv(s, steps[0]);
      ActsTrack(b, s, m, steps[0], t);
      ShadowActs(b, Apply(s, steps[0]), Apply(m, steps[0]), steps[1..], t);
    }
  }

  lemma PhaseTracks(b: nat, s: State, m: State, t: Tid)
    requires Tracks(b, s, m)
    ensures PhaseAt(m, t) == PhaseAt(s, t)
  {
  }

  lemma AllOutside(s0: State, t: Tid)
    requires Init(s0)
    ensures PhaseAt(s0, t) == Outside
  {
  }

  /** With tags of any width, in a run that publishes no held word, every thread follows the
      protocol as well. */
  lemma CallsFollowWrapped(m0: State, steps: seq<Step>, t: Tid)
    requires InitWrapped(m0) && Runs(m0, steps) && FreshRun(m0, steps)
    ensures Follow(m0.limit, Outside, Acts(m0, steps, t)) == Some(PhaseAt(End(m0, steps), t))
  {
    var b, s0 := m0.bits.value, m0.(bits := None);
    WrappedIsNatural(m0, steps);
    InitTracks(m0);
    ShadowActs(b, s0, m0, steps, t);
    AllOutside(s0, t);
    CallsFollow(s0, steps, t);
    PhaseTracks(b, End(s0, steps), End(m0, steps), t);
  }
}
