/** What the callers of the CAS stack see. Every thread follows a fixed protocol, whatever the others
    do and whatever the width of the keys: a Push returns only after one won swap of its own data, a
    Pop returns data only after the swap that took them, and reports an empty stack only because of
    the size it read. */
module StackCalls {
  import opened Counting
  import opened LockFreeStack
  import opened StackTheorems
  import opened Wrappers

  datatype Answer = Done | Got(d: Data) | Empty

  /** What a caller can see of its thread: calls begin and return, and in between `_size` is read
      and swaps are won. */
  datatype Act =
    | BeginPush(d: Data)
    | BeginPop
    | ReadSize(n: int)
    | Won(e: Event)
    | Returned(a: Answer)

  /** What a call returns when it ends at this program counter. */
  function AnswerOf(pc: Pc): Answer {
    match pc
    case Undo => Empty
    case Release(_, d) => Got(d)
    case _ => Done
  }

  function OwnActs(s: State, t: Tid): seq<Act>
    requires Enabled(s, Advance(t))
  {
    (if s.thr[t] == Reserve then [ReadSize(s.size)] else [])
    + (if Observe(s, Advance(t)) != Silent then [Won(Observe(s, Advance(t)))] else [])
    + (if Move(s, t).thr[t] == Idle then [Returned(AnswerOf(s.thr[t]))] else [])
  }

  function ActsOf(s: State, step: Step, t: Tid): seq<Act>
    requires Enabled(s, step)
  {
    match step
    case StartPush(u, d) => if u == t then [BeginPush(d)] else []
    case StartPop(u) => if u == t then [BeginPop] else []
    case Advance(u) => if u == t then OwnActs(s, t) else []
    case _ => []
  }

  /** The acts of thread t in a run. */
  ghost function Acts(s: State, steps: seq<Step>, t: Tid): seq<Act>
    requires Runs(s, steps)
    decreases |steps|
  {
    if steps == [] then [] else ActsOf(s, steps[0], t) + Acts(Apply(s, steps[0]), steps[1..], t)
  }

  // ----- The protocol -----

  datatype Phase = Outside | Pushing(d: Data) | Pushed | Asking | Failing | Popping | Took(d: Data)

  function Next(phase: Phase, act: Act): Option<Phase> {
    match (phase, act)
    case (Outside, BeginPush(d)) => Some(Pushing(d))
    case (Pushing(d), Won(e)) => if e == Event.Pushed(d) then Some(Phase.Pushed) else None
    case (Pushed, Returned(a)) => if a == Done then Some(Outside) else None
    case (Outside, BeginPop) => Some(Asking)
    case (Asking, ReadSize(n)) => Some(if n >= 1 then Popping else Failing)
    case (Failing, Returned(a)) => if a == Empty then Some(Outside) else None
    case (Popping, Won(e)) => if e.Popped? then Some(Took(e.d)) else None
    case (Took(d), Returned(a)) => if a == Got(d) then Some(Outside) else None
    case _ => None
  }

  function Follow(phase: Phase, acts: seq<Act>): Option<Phase>
    decreases |acts|
  {
    if acts == [] then Some(phase)
    else match Next(phase, acts[0])
      case None => None
      case Some(p) => Follow(p, acts[1..])
  }

  function PhaseOf(pc: Pc): Phase {
    match pc
    case Idle => Outside
    case CountUp => Phase.Pushed
    case Reserve => Asking
    case Undo => Failing
    case Release(_, d) => Took(d)
    case LoadTop => Popping
    case ReadNext(_) => Popping
    case ReadData(_, _) => Popping
    case Take(_, _, _) => Popping
    case _ => Pushing(pc.d)
  }

  function PhaseAt(s: State, t: Tid): Phase {
    if t in s.thr then PhaseOf(s.thr[t]) else Outside
  }

  lemma OwnStepFollows(s: State, t: Tid)
    requires Enabled(s, Advance(t))
    ensures Follow(PhaseAt(s, t), OwnActs(s, t)) == Some(PhaseAt(Move(s, t), t))
  {
  }

  lemma StepFollows(s: State, step: Step, t: Tid)
    requires Enabled(s, step)
    ensures Follow(PhaseAt(s, t), ActsOf(s, step, t)) == Some(PhaseAt(Apply(s, step), t))
  {
    if step == Advance(t) {
      OwnStepFollows(s, t);
    }
  }

  lemma {:induction false} FollowConcat(phase: Phase, a: seq<Act>, b: seq<Act>)
    requires Follow(phase, a).Some?
    ensures Follow(phase, a + b) == Follow(Follow(phase, a).value, b)
    decreases |a|
  {
    if a == [] {
      assert a + b == b;
    } else {
      FollowConcat(Next(phase, a[0]).value, a[1..], b);
      assert (a + b)[1..] == a[1..] + b;
    }
  }

  /** In every run, from any state and with keys of any width, the acts of every thread follow the
      protocol, which ends where the thread stands. */
  lemma {:induction false} CallsFollow(s: State, steps: seq<Step>, t: Tid)
    requires Runs(s, steps)
    ensures Follow(PhaseAt(s, t), Acts(s, steps, t)) == Some(PhaseAt(End(s, steps), t))
    decreases |steps|
  {
    if steps != [] {
      StepFollows(s, steps[0], t);
      CallsFollow(Apply(s, steps[0]), steps[1..], t);
      FollowConcat(PhaseAt(s, t), ActsOf(s, steps[0], t), Acts(Apply(s, steps[0]), steps[1..], t));
    }
  }

  predicate Begins(act: Act) {
    act.BeginPush? || act.BeginPop?
  }

  /** The acts of a single call. */
  predicate OneCall(acts: seq<Act>) {
    acts != [] && forall i :: 1 <= i < |acts| ==> !Begins(acts[i])
  }

  lemma NothingOutside(acts: seq<Act>)
    requires Follow(Outside, acts) == Some(Outside) && (acts != [] ==> !Begins(acts[0]))
    ensures acts == []
  {
  }

  lemma OneMore(phase: Phase, acts: seq<Act>)
    requires Follow(phase, acts) == Some(Outside) && (phase != Outside || acts != [])
    ensures acts != [] && Next(phase, acts[0]).Some? && Follow(Next(phase, acts[0]).value, acts[1..]) == Some(Outside)
  {
  }

  lemma PushActs(d: Data, acts: seq<Act>)
    requires Follow(Pushing(d), acts) == Some(Outside) && forall i :: 0 <= i < |acts| ==> !Begins(acts[i])
    ensures acts == [Won(Event.Pushed(d)), Returned(Done)]
  {
    OneMore(Pushing(d), acts);
    OneMore(Phase.Pushed, acts[1..]);
    NothingOutside(acts[1..][1..]);
  }

  lemma FailActs(acts: seq<Act>)
    requires Follow(Failing, acts) == Some(Outside) && forall i :: 0 <= i < |acts| ==> !Begins(acts[i])
    ensures acts == [Returned(Empty)]
  {
    OneMore(Failing, acts);
    NothingOutside(acts[1..]);
  }

  lemma GotActs(acts: seq<Act>)
    requires Follow(Popping, acts) == Some(Outside) && forall i :: 0 <= i < |acts| ==> !Begins(acts[i])
    ensures acts != [] && acts[0].Won? && acts[0].e.Popped? && acts == [acts[0], Returned(Got(acts[0].e.d))]
  {
    OneMore(Popping, acts);
    OneMore(Took(acts[0].e.d), acts[1..]);
    NothingOutside(acts[1..][1..]);
  }

  lemma PopActs(acts: seq<Act>)
    requires Follow(Asking, acts) == Some(Outside) && forall i :: 0 <= i < |acts| ==> !Begins(acts[i])
    ensures |acts| >= 2 && acts[0].ReadSize?
    ensures acts[0].n < 1 ==> acts == [acts[0], Returned(Empty)]
    ensures acts[0].n >= 1 ==>
      acts[1].Won? && acts[1].e.Popped? && acts == [acts[0], acts[1], Returned(Got(acts[1].e.d))]
  {
    OneMore(Asking, acts);
    if acts[0].n < 1 {
      FailActs(acts[1..]);
    } else {
      GotActs(acts[1..]);
    }
  }

  /** A whole Push call of any run: it returns after one won swap, of the data it was called with. */
  lemma PushCall(s: State, steps: seq<Step>, t: Tid, d: Data)
    requires Runs(s, steps) && PhaseAt(s, t) == Outside && PhaseAt(End(s, steps), t) == Outside
    requires OneCall(Acts(s, steps, t)) && Acts(s, steps, t)[0] == BeginPush(d)
    ensures Acts(s, steps, t)[1..] == [Won(Event.Pushed(d)), Returned(Done)]
  {
    CallsFollow(s, steps, t);
    OneMore(Outside, Acts(s, steps, t));
    PushActs(d, Acts(s, steps, t)[1..]);
  }

  /** A whole Pop call: it reports an empty stack if and only if the size it read was below one,
      and otherwise returns the data of its one won swap. */
  lemma PopCall(s: State, steps: seq<Step>, t: Tid)
    requires Runs(s, steps) && PhaseAt(s, t) == Outside && PhaseAt(End(s, steps), t) == Outside
    requires OneCall(Acts(s, steps, t)) && Acts(s, steps, t)[0] == BeginPop
    ensures var acts := Acts(s, steps, t)[1..];
      && |acts| >= 2 && acts[0].ReadSize?
      && (acts[0].n < 1 ==> acts == [acts[0], Returned(Empty)])
      && (acts[0].n >= 1 ==>
            acts[1].Won? && acts[1].e.Popped? && acts == [acts[0], acts[1], Returned(Got(acts[1].e.d))])
  {
    CallsFollow(s, steps, t);
    OneMore(Outside, Acts(s, steps, t));
    PopActs(Acts(s, steps, t)[1..]);
  }

  // ----- Nothing dropped, over all threads -----

  /** Data of the Push calls begun, of the swaps won, and of the Pop calls that returned data. */
  datatype Tally = Tally(begun: multiset<Data>, pushed: multiset<Data>, popped: multiset<Data>, got: multiset<Data>)

  const NOTHING := Tally(multiset{}, multiset{}, multiset{}, multiset{})

  function Plus(a: Tally, b: Tally): Tally {
    Tally(a.begun + b.begun, a.pushed + b.pushed, a.popped + b.popped, a.got + b.got)
  }

  function ActTally(act: Act): Tally {
    match act
    case BeginPush(d) => NOTHING.(begun := multiset{d})
    case Won(Pushed(d)) => NOTHING.(pushed := multiset{d})
    case Won(Popped(d)) => NOTHING.(popped := multiset{d})
    case Returned(Got(d)) => NOTHING.(got := multiset{d})
    case _ => NOTHING
  }

  function TallyOf(acts: seq<Act>): Tally
    decreases |acts|
  {
    if acts == [] then NOTHING else Plus(ActTally(acts[0]), TallyOf(acts[1..]))
  }

  /** The tally of all threads' acts in a run. */
  ghost function RunTally(s: State, steps: seq<Step>): Tally
    requires Runs(s, steps)
    decreases |steps|
  {
    if steps == [] then NOTHING
    else Plus(TallyOf(StepActs(s, steps[0])), RunTally(Apply(s, steps[0]), steps[1..]))
  }

  /** The acts of the thread that makes the step, if a thread does. */
  function StepActs(s: State, step: Step): seq<Act>
    requires Enabled(s, step)
  {
    if step.Carve? || step.Scribble? then [] else ActsOf(s, step, step.t)
  }

  lemma NextPushes(phase: Phase, act: Act, d: Data)
    requires Next(phase, act).Some?
    ensures var phase', a := Next(phase, act).value, ActTally(act);
      Bit(phase == Pushing(d)) + a.begun[d] == a.pushed[d] + Bit(phase' == Pushing(d))
  {
  }

  lemma NextPops(phase: Phase, act: Act, d: Data)
    requires Next(phase, act).Some?
    ensures var phase', a := Next(phase, act).value, ActTally(act);
      Bit(phase == Took(d)) + a.popped[d] == a.got[d] + Bit(phase' == Took(d))
  {
  }

  /** What the protocol owes between two phases, for data d. */
  lemma {:induction false} FollowTally(phase: Phase, acts: seq<Act>, d: Data)
    requires Follow(phase, acts).Some?
    ensures var phase', a := Follow(phase, acts).value, TallyOf(acts);
      && Bit(phase == Pushing(d)) + a.begun[d] == a.pushed[d] + Bit(phase' == Pushing(d))
      && Bit(phase == Took(d)) + a.popped[d] == a.got[d] + Bit(phase' == Took(d))
    decreases |acts|
  {
    if acts != [] {
      NextPushes(phase, acts[0], d);
      NextPops(phase, acts[0], d);
      FollowTally(Next(phase, acts[0]).value, acts[1..], d);
    }
  }

  /** Threads that still have to push d. */
  ghost function ToPush(d: Data): Pc -> bool {
    (pc: Pc) => PhaseOf(pc) == Pushing(d)
  }

  /** Threads that have popped d and not returned it yet. */
  ghost function ToReturn(d: Data): Pc -> bool {
    (pc: Pc) => PhaseOf(pc) == Took(d)
  }

  ghost predicate Balanced(d: Data, s: State, a: Tally, s': State) {
    && Count(s.thr, ToPush(d)) + a.begun[d] == a.pushed[d] + Count(s'.thr, ToPush(d))
    && Count(s.thr, ToReturn(d)) + a.popped[d] == a.got[d] + Count(s'.thr, ToReturn(d))
  }

  /** Only the thread that makes a step changes its program counter. */
  lemma OneThreadMoves(s: State, step: Step)
    requires Enabled(s, step)
    ensures step.Carve? || step.Scribble? ==> Apply(s, step).thr == s.thr
    ensures !(step.Carve? || step.Scribble?) ==>
      step.t in Apply(s, step).thr && Apply(s, step).thr == s.thr[step.t := Apply(s, step).thr[step.t]]
    ensures step.Spawn? ==> step.t !in s.thr && Apply(s, step).thr[step.t] == Idle
    ensures !(step.Carve? || step.Scribble? || step.Spawn?) ==> step.t in s.thr
  {
  }

  lemma StepBalanced(s: State, step: Step, d: Data)
    requires Enabled(s, step)
    ensures Balanced(d, s, TallyOf(StepActs(s, step)), Apply(s, step))
  {
    OneThreadMoves(s, step);
    if step.Spawn? {
      CountSpawn(s.thr, step.t, Idle, ToPush(d));
      CountSpawn(s.thr, step.t, Idle, ToReturn(d));
    } else if !step.Carve? && !step.Scribble? {
      StepFollows(s, step, step.t);
      FollowTally(PhaseAt(s, step.t), StepActs(s, step), d);
      CountUpdate(s.thr, step.t, Apply(s, step).thr[step.t], ToPush(d));
      CountUpdate(s.thr, step.t, Apply(s, step).thr[step.t], ToReturn(d));
    }
  }

  /** Over any run, for every data value: the Push calls begun with it are the won pushes of it and
      those still under way, and the won pops of it are the Pop calls that returned it and those
      about to. */
  lemma {:induction false} NothingDropped(s: State, steps: seq<Step>, d: Data)
    requires Runs(s, steps)
    ensures Balanced(d, s, RunTally(s, steps), End(s, steps))
    decreases |steps|
  {
    if steps != [] {
      StepBalanced(s, steps[0], d);
      NothingDropped(Apply(s, steps[0]), steps[1..], d);
    }
  }

  // ----- Progress of a Push -----

  /** A Push that has its node. */
  predicate HasNode(pc: Pc) {
    (PhaseOf(pc).Pushing? && !pc.NeedNode?) || pc.CountUp?
  }

  /** How many own steps separate it from its end while nobody else moves. */
  function StepsLeft(top: Ptr, pc: Pc): nat {
    match pc
    case CountUp => 1
    case SwingTop(_, _, _, seen) => if seen == top then 2 else 5
    case WriteNext(_, _, _, seen) => if seen == top then 3 else 6
    case ReadTop(_, _, _) => 4
    case TakeKey(_, _) => 5
    case _ => 6
  }

  /** What it still adds to the stack. */
  ghost function Owed(pc: Pc): seq<Data> {
    if PhaseOf(pc).Pushing? then [PhaseOf(pc).d] else []
  }

  lemma PushMoves(s: State, t: Tid)
    requires Inv(s) && t in s.thr && HasNode(s.thr[t])
    ensures Enabled(s, Advance(t))
    ensures var s', pc := Move(s, t), s.thr[t];
      && t in s'.thr
      && (if pc.CountUp? then s'.thr[t] == Idle && s'.size == s.size + 1
          else HasNode(s'.thr[t]) && StepsLeft(s'.top, s'.thr[t]) < StepsLeft(s.top, pc) && s'.size == s.size)
  {
    assert LocalOk(s, t, s.thr[t]);
  }

  lemma PushOwes(s: State, t: Tid)
    requires Inv(s) && Enabled(s, Advance(t)) && HasNode(s.thr[t])
    ensures t in Move(s, t).thr && Stacked(s) + Owed(s.thr[t]) == Stacked(Move(s, t)) + Owed(Move(s, t).thr[t])
  {
    AdvanceRefines(s, t);
    OwnStepFollows(s, t);
    if Observe(s, Advance(t)) == Silent {
      assert Move(s, t).thr[t] != Idle || s.thr[t].CountUp?;
    }
  }

  /** The call of t has ended, and its data are in the stack and counted. */
  ghost predicate Finished(s: State, s': State, t: Tid)
    requires t in s.thr
  {
    t in s'.thr && s'.thr[t] == Idle && s'.size == s.size + 1 && Stacked(s') == Stacked(s) + Owed(s.thr[t])
  }

  /** It has not ended, and owes the same stack. */
  ghost predicate OwesSame(s: State, s': State, t: Tid)
    requires t in s.thr && t in s'.thr
  {
    s'.size == s.size && Stacked(s) + Owed(s.thr[t]) == Stacked(s') + Owed(s'.thr[t])
  }

  lemma FinishedLater(s: State, s1: State, s': State, t: Tid)
    requires t in s.thr && t in s1.thr && OwesSame(s, s1, t) && Finished(s1, s', t)
    ensures Finished(s, s', t)
  {
  }

  lemma PushStep(s: State, t: Tid) returns (s': State)
    requires Inv(s) && t in s.thr && HasNode(s.thr[t])
    ensures Enabled(s, Advance(t)) && s' == Move(s, t) && Inv(s') && t in s'.thr
    ensures if s.thr[t].CountUp? then Finished(s, s', t)
            else HasNode(s'.thr[t]) && StepsLeft(s'.top, s'.thr[t]) < StepsLeft(s.top, s.thr[t]) && OwesSame(s, s', t)
  {
    PushMoves(s, t);
    PushOwes(s, t);
    StepInv(s, Advance(t));
    s' := Move(s, t);
    if s.thr[t].CountUp? {
      assert Stacked(s) + [] == Stacked(s) && Stacked(s') + [] == Stacked(s');
    }
  }

  lemma AloneMoves(s: State, t: Tid, n: nat, s': State)
    requires Enabled(s, Advance(t)) && s' == Move(s, t)
    ensures Alone(s, t, n + 1) == Alone(s', t, n)
  {
  }

  /** Whatever stale values it holds, a Push that runs alone ends within six steps, with its data on
      top of the stack and counted. */
  lemma {:induction false} PushCanFinish(s: State, t: Tid) returns (n: nat)
    requires Inv(s) && t in s.thr && HasNode(s.thr[t])
    ensures n <= StepsLeft(s.top, s.thr[t]) <= 6 && Finished(s, Alone(s, t, n), t)
    decreases StepsLeft(s.top, s.thr[t])
  {
    var s' := PushStep(s, t);
    if s.thr[t].CountUp? {
      AloneMoves(s, t, 0, s');
      n := 1;
    } else {
      n := PushCanFinish(s', t);
      FinishedLater(s, s', Alone(s', t, n), t);
      AloneMoves(s, t, n, s');
      n := n + 1;
    }
  }
}
