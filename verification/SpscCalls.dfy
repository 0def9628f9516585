/** What the two callers of the shared ring buffer see, in every interleaving: an Enqueue publishes
    all of its bytes or, if the free size it read was too small, none; a Dequeue takes exactly what
    it asked for or, in its short-read branch, exactly the used size it read there. */
module SpscCalls {
  import opened Bytes
  import opened RingBuffer
  import opened RingSpsc
  import opened Wrappers

  // ----- The producer -----

  /** A call begins, reads the free size, and ends with the bytes it has published. */
  datatype PutAct = BeginPut(data: seq<Byte>) | ReadFree(n: int) | EndPut(published: seq<Byte>)

  function PutActs(s: State, step: Step): seq<PutAct>
    requires Enabled(s, step)
  {
    match step
    case BeginEnqueue(data) => [BeginPut(data)]
    case Produce =>
      (if s.producer.PSize? then [ReadFree(FreeSize(s.front, s.rear, |s.buf|))] else [])
      + (if MoveProducer(s).producer == PIdle then [EndPut(MoveProducer(s).written[|s.written|..])] else [])
    case _ => []
  }

  ghost function RunPutActs(s: State, steps: seq<Step>): seq<PutAct>
    requires Runs(s, steps)
    decreases |steps|
  {
    if steps == [] then [] else PutActs(s, steps[0]) + RunPutActs(Apply(s, steps[0]), steps[1..])
  }

  datatype PutPhase = NotPutting | Called(data: seq<Byte>) | Storing(data: seq<Byte>) | Refusing

  function NextPut(phase: PutPhase, act: PutAct): Option<PutPhase> {
    match (phase, act)
    case (NotPutting, BeginPut(data)) => Some(Called(data))
    case (Called(data), ReadFree(n)) => Some(if n >= |data| then Storing(data) else Refusing)
    case (Storing(data), EndPut(published)) => if published == data then Some(NotPutting) else None
    case (Refusing, EndPut(published)) => if published == [] then Some(NotPutting) else None
    case _ => None
  }

  function FollowPut(phase: PutPhase, acts: seq<PutAct>): Option<PutPhase>
    decreases |acts|
  {
    if acts == [] then Some(phase)
    else match NextPut(phase, acts[0])
      case None => None
      case Some(p) => FollowPut(p, acts[1..])
  }

  function PutPhaseOf(s: State): PutPhase {
    match s.producer
    case PIdle => NotPutting
    case PSize(data) => Called(data)
    case PCheck(data, front) => if FreeSize(front, s.rear, |s.buf|) >= |data| then Storing(data) else Refusing
    case PBranch(data) => Storing(data)
    case PCopy(data, _, _) => Storing(data)
  }

  lemma StepPut(s: State, step: Step)
    requires Enabled(s, step)
    ensures FollowPut(PutPhaseOf(s), PutActs(s, step)) == Some(PutPhaseOf(Apply(s, step)))
  {
  }

  lemma {:induction false} FollowPutConcat(phase: PutPhase, a: seq<PutAct>, b: seq<PutAct>)
    requires FollowPut(phase, a).Some?
    ensures FollowPut(phase, a + b) == FollowPut(FollowPut(phase, a).value, b)
    decreases |a|
  {
    if a == [] {
      assert a + b == b;
    } else {
      FollowPutConcat(NextPut(phase, a[0]).value, a[1..], b);
      assert (a + b)[1..] == a[1..] + b;
    }
  }

  /** In every run the producer's calls follow the protocol, which ends where the producer stands. */
  lemma {:induction false} PutsFollow(s: State, steps: seq<Step>)
    requires Runs(s, steps)
    ensures FollowPut(PutPhaseOf(s), RunPutActs(s, steps)) == Some(PutPhaseOf(End(s, steps)))
    decreases |steps|
  {
    if steps != [] {
      StepPut(s, steps[0]);
      PutsFollow(Apply(s, steps[0]), steps[1..]);
      FollowPutConcat(PutPhaseOf(s), PutActs(s, steps[0]), RunPutActs(Apply(s, steps[0]), steps[1..]));
    }
  }

  /** The bytes that the calls of a run have published, one after another. */
  function AllPublished(acts: seq<PutAct>): seq<Byte>
    decreases |acts|
  {
    if acts == [] then []
    else (if acts[0].EndPut? then acts[0].published else []) + AllPublished(acts[1..])
  }

  lemma {:induction false} PublishedConcat(a: seq<PutAct>, b: seq<PutAct>)
    ensures AllPublished(a + b) == AllPublished(a) + AllPublished(b)
    decreases |a|
  {
    if a == [] {
      assert a + b == b;
    } else {
      PublishedConcat(a[1..], b);
      assert (a + b)[1..] == a[1..] + b;
      Appended(if a[0].EndPut? then a[0].published else [], AllPublished(a[1..]), AllPublished(b));
    }
  }

  lemma StepPublishes(s: State, step: Step)
    requires Enabled(s, step)
    ensures Apply(s, step).written == s.written + AllPublished(PutActs(s, step))
  {
  }

  lemma Appended(a: seq<Byte>, b: seq<Byte>, c: seq<Byte>)
    ensures (a + b) + c == a + (b + c)
  {
  }

  /** Nothing else is ever published. */
  lemma {:induction false} WrittenByCalls(s: State, steps: seq<Step>)
    requires Runs(s, steps)
    ensures End(s, steps).written == s.written + AllPublished(RunPutActs(s, steps))
    decreases |steps|
  {
    if steps != [] {
      var s', rest := Apply(s, steps[0]), RunPutActs(Apply(s, steps[0]), steps[1..]);
      StepPublishes(s, steps[0]);
      WrittenByCalls(s', steps[1..]);
      PublishedConcat(PutActs(s, steps[0]), rest);
      Appended(s.written, AllPublished(PutActs(s, steps[0])), AllPublished(rest));
    }
  }

  /** A whole Enqueue call: it publishes exactly its bytes, or nothing if and only if the free size
      it read is below their number. */
  lemma EnqueueCall(s: State, steps: seq<Step>, data: seq<Byte>)
    requires Runs(s, steps) && s.producer == PIdle && End(s, steps).producer == PIdle
    requires var acts := RunPutActs(s, steps);
      acts != [] && acts[0] == BeginPut(data) && forall i :: 1 <= i < |acts| ==> !acts[i].BeginPut?
    ensures var acts := RunPutActs(s, steps);
      && |acts| == 3 && acts[1].ReadFree?
      && acts == [BeginPut(data), acts[1], EndPut(if acts[1].n >= |data| then data else [])]
    ensures End(s, steps).written == s.written + if RunPutActs(s, steps)[1].n >= |data| then data else []
  {
    var acts := RunPutActs(s, steps);
    PutsFollow(s, steps);
    OnePut(data, acts);
    WrittenByCalls(s, steps);
    assert AllPublished(acts) == acts[2].published by {
      assert acts[1..][1..] == [acts[2]] && [acts[2]][1..] == [];
      assert AllPublished([acts[2]]) == acts[2].published;
    }
  }

  lemma MorePut(phase: PutPhase, acts: seq<PutAct>)
    requires FollowPut(phase, acts) == Some(NotPutting) && (phase != NotPutting || acts != [])
    ensures acts != [] && NextPut(phase, acts[0]).Some?
    ensures FollowPut(NextPut(phase, acts[0]).value, acts[1..]) == Some(NotPutting)
  {
  }

  lemma OnePut(data: seq<Byte>, acts: seq<PutAct>)
    requires acts != [] && acts[0] == BeginPut(data) && forall i :: 1 <= i < |acts| ==> !acts[i].BeginPut?
    requires FollowPut(NotPutting, acts) == Some(NotPutting)
    ensures |acts| == 3 && acts[1].ReadFree?
    ensures acts == [BeginPut(data), acts[1], EndPut(if acts[1].n >= |data| then data else [])]
  {
    MorePut(NotPutting, acts);
    MorePut(Called(data), acts[1..]);
    var n := acts[1].n;
    MorePut(if n >= |data| then Storing(data) else Refusing, acts[1..][1..]);
    NoPut(acts[1..][1..][1..]);
  }

  lemma NoPut(acts: seq<PutAct>)
    requires FollowPut(NotPutting, acts) == Some(NotPutting) && (acts != [] ==> !acts[0].BeginPut?)
    ensures acts == []
  {
  }

  // ----- The consumer -----

  /** A call begins, reads the used size, a second time in the short-read branch, and ends with the
      bytes it has taken. */
  datatype TakeAct = BeginTake(asked: nat) | ReadUsed(n: int) | EndTake(taken: seq<Byte>)

  function TakeActs(s: State, step: Step): seq<TakeAct>
    requires Enabled(s, step)
  {
    match step
    case BeginDequeue(n) => [BeginTake(n)]
    case Consume =>
      (if s.consumer.CSize? || s.consumer.CShort? then [ReadUsed(UsedSize(s.front, s.rear, |s.buf|))] else [])
      + (if MoveConsumer(s).consumer == CIdle then [EndTake(MoveConsumer(s).taken[|s.taken|..])] else [])
    case _ => []
  }

  ghost function RunTakeActs(s: State, steps: seq<Step>): seq<TakeAct>
    requires Runs(s, steps)
    decreases |steps|
  {
    if steps == [] then [] else TakeActs(s, steps[0]) + RunTakeActs(Apply(s, steps[0]), steps[1..])
  }

  datatype TakePhase = NotTaking | Asking(asked: nat) | Serving(n: int) | Short | Nothing

  function NextTake(phase: TakePhase, act: TakeAct): Option<TakePhase> {
    match (phase, act)
    case (NotTaking, BeginTake(n)) => Some(Asking(n))
    case (Asking(n), ReadUsed(used)) => Some(if used >= n then Serving(n) else Short)
    case (Short, ReadUsed(used)) => Some(if used == 0 then Nothing else Serving(used))
    case (Serving(n), EndTake(taken)) => if |taken| == n then Some(NotTaking) else None
    case (Nothing, EndTake(taken)) => if taken == [] then Some(NotTaking) else None
    case _ => None
  }

  function FollowTake(phase: TakePhase, acts: seq<TakeAct>): Option<TakePhase>
    decreases |acts|
  {
    if acts == [] then Some(phase)
    else match NextTake(phase, acts[0])
      case None => None
      case Some(p) => FollowTake(p, acts[1..])
  }

  function TakePhaseOf(s: State): TakePhase {
    match s.consumer
    case CIdle => NotTaking
    case CSize(n) => Asking(n)
    case CCheck(n, rear) => if UsedSize(s.front, rear, |s.buf|) >= n then Serving(n) else Short
    case CBranch(n) => Serving(n)
    case CCopy(_, n, _, _) => Serving(n)
    case CShort(_) => Short
    case CPick(_, rear, _) => Serving(UsedSize(s.front, rear, |s.buf|))
    case CFault(length) => Serving(length + (|s.buf| - s.front))
    case COverrun(_, n) => Serving(n)
  }

  lemma EmptyActs(s: State)
    requires s.consumer.CShort? && UsedSize(s.front, s.rear, |s.buf|) == 0
    ensures TakeActs(s, Consume) == [ReadUsed(0), EndTake([])]
    ensures FollowTake(Short, TakeActs(s, Consume)) == Some(NotTaking)
    ensures AllTaken(TakeActs(s, Consume)) == []
  {
    assert s.taken[|s.taken|..] == [];
    assert [ReadUsed(0), EndTake([])][1..] == [EndTake([])] && [EndTake([])][1..] == [];
    assert FollowTake(Nothing, [EndTake([])]) == Some(NotTaking);
    assert AllTaken([EndTake([])]) == [];
  }

  lemma LastActs(s: State)
    requires Inv(s) && s.consumer.CCopy? && Enabled(s, Consume)
    ensures FollowTake(TakePhaseOf(s), TakeActs(s, Consume)) == Some(TakePhaseOf(MoveConsumer(s)))
  {
  }

  lemma StepTake(s: State, step: Step)
    requires Inv(s) && Enabled(s, step)
    ensures FollowTake(TakePhaseOf(s), TakeActs(s, step)) == Some(TakePhaseOf(Apply(s, step)))
  {
    if step == Consume {
      if s.consumer.CShort? && UsedSize(s.front, s.rear, |s.buf|) == 0 {
        EmptyActs(s);
      } else if s.consumer.CCopy? {
        LastActs(s);
      }
    }
  }

  lemma {:induction false} FollowTakeConcat(phase: TakePhase, a: seq<TakeAct>, b: seq<TakeAct>)
    requires FollowTake(phase, a).Some?
    ensures FollowTake(phase, a + b) == FollowTake(FollowTake(phase, a).value, b)
    decreases |a|
  {
    if a == [] {
      assert a + b == b;
    } else {
      FollowTakeConcat(NextTake(phase, a[0]).value, a[1..], b);
      assert (a + b)[1..] == a[1..] + b;
    }
  }

  /** In every run the consumer's calls follow the protocol, which ends where the consumer stands. */
  lemma {:induction false} TakesFollow(s: State, steps: seq<Step>)
    requires Inv(s) && Runs(s, steps)
    ensures FollowTake(TakePhaseOf(s), RunTakeActs(s, steps)) == Some(TakePhaseOf(End(s, steps)))
    decreases |steps|
  {
    if steps != [] {
      StepTake(s, steps[0]);
      StepInv(s, steps[0]);
      TakesFollow(Apply(s, steps[0]), steps[1..]);
      FollowTakeConcat(TakePhaseOf(s), TakeActs(s, steps[0]), RunTakeActs(Apply(s, steps[0]), steps[1..]));
    }
  }

  /** The bytes that the calls of a run have taken, one after another. */
  function AllTaken(acts: seq<TakeAct>): seq<Byte>
    decreases |acts|
  {
    if acts == [] then [] else (if acts[0].EndTake? then acts[0].taken else []) + AllTaken(acts[1..])
  }

  lemma {:induction false} TakenConcat(a: seq<TakeAct>, b: seq<TakeAct>)
    ensures AllTaken(a + b) == AllTaken(a) + AllTaken(b)
    decreases |a|
  {
    if a == [] {
      assert a + b == b;
    } else {
      TakenConcat(a[1..], b);
      assert (a + b)[1..] == a[1..] + b;
      Appended(if a[0].EndTake? then a[0].taken else [], AllTaken(a[1..]), AllTaken(b));
    }
  }

  lemma StepTakes(s: State, step: Step)
    requires Enabled(s, step)
    ensures Apply(s, step).taken == s.taken + AllTaken(TakeActs(s, step))
  {
    if step == Consume && s.consumer.CShort? && UsedSize(s.front, s.rear, |s.buf|) == 0 {
      EmptyActs(s);
    }
  }

  /** Nothing else is ever taken. */
  lemma {:induction false} TakenByCalls(s: State, steps: seq<Step>)
    requires Runs(s, steps)
    ensures End(s, steps).taken == s.taken + AllTaken(RunTakeActs(s, steps))
    decreases |steps|
  {
    if steps != [] {
      var s', rest := Apply(s, steps[0]), RunTakeActs(Apply(s, steps[0]), steps[1..]);
      StepTakes(s, steps[0]);
      TakenByCalls(s', steps[1..]);
      TakenConcat(TakeActs(s, steps[0]), rest);
      Appended(s.taken, AllTaken(TakeActs(s, steps[0])), AllTaken(rest));
    }
  }

  lemma MoreTake(phase: TakePhase, acts: seq<TakeAct>)
    requires FollowTake(phase, acts) == Some(NotTaking) && (phase != NotTaking || acts != [])
    ensures acts != [] && NextTake(phase, acts[0]).Some?
    ensures FollowTake(NextTake(phase, acts[0]).value, acts[1..]) == Some(NotTaking)
  {
  }

  lemma NoTake(acts: seq<TakeAct>)
    requires FollowTake(NotTaking, acts) == Some(NotTaking) && (acts != [] ==> !acts[0].BeginTake?)
    ensures acts == []
  {
  }

  /** What a call takes that asked for n, given what it read. */
  predicate TakesWhatItRead(n: nat, acts: seq<TakeAct>) {
    && |acts| >= 2 && acts[0].ReadUsed?
    && if acts[0].n >= n then |acts| == 2 && acts[1].EndTake? && |acts[1].taken| == n
       else |acts| == 3 && acts[1].ReadUsed? && acts[2].EndTake? && |acts[2].taken| == acts[1].n
  }

  lemma OneTake(n: nat, acts: seq<TakeAct>)
    requires FollowTake(Asking(n), acts) == Some(NotTaking) && forall i :: 0 <= i < |acts| ==> !acts[i].BeginTake?
    ensures TakesWhatItRead(n, acts)
  {
    MoreTake(Asking(n), acts);
    var rest := acts[1..];
    if acts[0].n >= n {
      MoreTake(Serving(n), rest);
      NoTake(rest[1..]);
    } else {
      MoreTake(Short, rest);
      MoreTake(NextTake(Short, rest[0]).value, rest[1..]);
      NoTake(rest[1..][1..]);
    }
  }

  /** A whole Dequeue call: if the used size it read covers the request, it takes exactly what it
      asked for, and otherwise exactly the used size that it read the second time. */
  lemma DequeueCall(s: State, steps: seq<Step>, n: nat)
    requires Inv(s) && Runs(s, steps) && s.consumer == CIdle && End(s, steps).consumer == CIdle
    requires var acts := RunTakeActs(s, steps);
      acts != [] && acts[0] == BeginTake(n) && forall i :: 1 <= i < |acts| ==> !acts[i].BeginTake?
    ensures var acts := RunTakeActs(s, steps)[1..];
      TakesWhatItRead(n, acts) && End(s, steps).taken == s.taken + acts[|acts| - 1].taken
  {
    var acts := RunTakeActs(s, steps);
    TakesFollow(s, steps);
    MoreTake(NotTaking, acts);
    OneTake(n, acts[1..]);
    TakenByCalls(s, steps);
    TakenLast(acts[1..], n);
  }

  lemma TakenLast(acts: seq<TakeAct>, n: nat)
    requires TakesWhatItRead(n, acts)
    ensures AllTaken(acts) == acts[|acts| - 1].taken
  {
    var last := acts[|acts| - 1];
    assert [last][1..] == [] && AllTaken([last]) == last.taken;
    if |acts| == 2 {
      assert acts[1..] == [last];
    } else {
      assert acts[1..][1..] == [last];
      assert AllTaken(acts[1..]) == [] + AllTaken([last]);
    }
  }

  // ----- Both calls end -----

  /** How many own steps a call still needs at most. */
  function PutStepsLeft(producer: Producer): nat {
    match producer
    case PIdle => 0
    case PSize(data) => |data| + 4
    case PCheck(data, _) => |data| + 3
    case PBranch(data) => |data| + 2
    case PCopy(data, _, k) => if k <= |data| then |data| - k + 1 else 0
  }

  function TakeStepsLeft(size: nat, consumer: Consumer): nat {
    match consumer
    case CSize(n) => n + size + 5
    case CCheck(n, _) => n + size + 4
    case CBranch(n) => n + 2
    case CCopy(_, n, _, dest) => if |dest| <= n then n - |dest| + 1 else 0
    case CShort(_) => size + 3
    case CPick(_, _, _) => size + 2
    case _ => 0
  }

  lemma PutEnds(s: State)
    requires Inv(s) && Enabled(s, Produce)
    ensures PutStepsLeft(MoveProducer(s).producer) < PutStepsLeft(s.producer)
  {
  }

  lemma TakeEnds(s: State)
    requires Inv(s) && Enabled(s, Consume)
    ensures TakeStepsLeft(|s.buf|, MoveConsumer(s).consumer) < TakeStepsLeft(|s.buf|, s.consumer)
  {
  }

  /** Every own step brings a call nearer to its end, whatever the other side does; only a broken
      short read has no further step. */
  lemma CallsEnd(s: State)
    requires Reachable(s)
    ensures s.producer != PIdle ==>
      Enabled(s, Produce) && PutStepsLeft(MoveProducer(s).producer) < PutStepsLeft(s.producer)
    ensures s.consumer != CIdle && !Broken(s.consumer) ==>
      Enabled(s, Consume) && TakeStepsLeft(|s.buf|, MoveConsumer(s).consumer) < TakeStepsLeft(|s.buf|, s.consumer)
  {
    ReachableInv(s);
    if s.producer != PIdle {
      ProducerInv(s);
      PutEnds(s);
    }
    if s.consumer != CIdle && !Broken(s.consumer) {
      ConsumerInv(s);
      TakeEnds(s);
    }
  }
}
