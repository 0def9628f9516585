/** One producer calling Enqueue and one consumer calling Dequeue on the same ring buffer with
    no lock, under sequential consistency: one step is one read of the other side's cursor, one
    copied byte, or one store of the own cursor. Both calls read the other cursor twice, once
    for the size and once to choose how to copy; the cursor may move in between. A Dequeue that
    asks for more than it finds takes the short-read branch, which reads it twice more. */
module RingSpsc {
  import opened Bytes
  import opened RingBuffer

  datatype Producer =
    | PIdle
    | PSize(data: seq<Byte>)                          // before the read of _front in GetUsedSize
    | PCheck(data: seq<Byte>, front: int)             // before the comparison with the free size
    | PBranch(data: seq<Byte>)                        // before the second read of _front
    | PCopy(data: seq<Byte>, split: bool, k: nat)     // k bytes copied

  datatype Consumer =
    | CIdle
    | CSize(n: nat)                                   // before the read of _rear in GetUsedSize
    | CCheck(n: nat, rear: int)                       // before the comparison with the used size
    | CBranch(n: nat)                                 // before the second read of _rear
    | CCopy(asked: nat, n: nat, split: bool, dest: seq<Byte>)   // |dest| of n bytes copied
    // the short-read branch
    | CShort(asked: nat)                              // before the read of _rear in GetUsedSize
    | CPick(asked: nat, rear: int, wraps: nat)        // before the next read of _rear
    | CFault(length: int)                             // memcpy was handed this negative length
    | COverrun(asked: nat, n: nat)                    // memcpy was handed more than the caller's array holds

  /** History variables: `written` and `taken`, all bytes published and consumed so far, and
      `wraps`, the number of publications that moved rear across index 0; CPick remembers the
      latter from its first read. */
  datatype State = State(
    buf: seq<Byte>, front: int, rear: int, producer: Producer, consumer: Consumer,
    written: seq<Byte>, taken: seq<Byte>, wraps: nat)

  datatype Step = BeginEnqueue(data: seq<Byte>) | BeginDequeue(n: nat) | Produce | Consume

  predicate Init(s: State) {
    && |s.buf| >= 1 && s.front == 0 && s.rear == 0
    && s.producer == PIdle && s.consumer == CIdle && s.written == [] && s.taken == [] && s.wraps == 0
  }

  /** Index the copy loop touches at its k-th byte: straight on from the cursor, or in two
      pieces. */
  function CopyIndex(cursor: int, size: int, split: bool, k: int): int {
    if split && k >= size - cursor then k - (size - cursor) else cursor + k
  }

  predicate InBuffer(s: State, i: int) {
    0 <= i < |s.buf|
  }

  predicate Enabled(s: State, step: Step) {
    match step
    case BeginEnqueue(_) => s.producer == PIdle
    case BeginDequeue(_) => s.consumer == CIdle
    case Produce =>
      (match s.producer
       case PIdle => false
       case PCopy(data, split, k) =>
         |s.buf| > 0 && (k < |data| ==> InBuffer(s, CopyIndex(s.rear, |s.buf|, split, k)))
       case _ => true)
    case Consume =>
      (match s.consumer
       case CIdle => false
       case CFault(_) => false
       case COverrun(_, _) => false
       case CPick(_, rear, _) => UsedSize(s.front, rear, |s.buf|) >= 0
       case CCopy(_, n, split, dest) =>
         |s.buf| > 0 && (|dest| < n ==> InBuffer(s, CopyIndex(s.front, |s.buf|, split, |dest|)))
       case _ => true)
  }

  function Apply(s: State, step: Step): State
    requires Enabled(s, step)
  {
    match step
    case BeginEnqueue(data) => s.(producer := PSize(data))
    case BeginDequeue(n) => s.(consumer := CSize(n))
    case Produce => MoveProducer(s)
    case Consume => MoveConsumer(s)
  }

  function MoveProducer(s: State): State
    requires Enabled(s, Produce)
  {
    var size := |s.buf|;
    match s.producer
    case PSize(data) => s.(producer := PCheck(data, s.front))
    case PCheck(data, front) =>
      if FreeSize(front, s.rear, size) >= |data| then s.(producer := PBranch(data)) else s.(producer := PIdle)
    case PBranch(data) =>
      if s.rear < s.front then s.(producer := PCopy(data, false, 0))
      else if size - s.rear >= |data| then s.(producer := PCopy(data, false, 0))
      else s.(producer := PCopy(data, true, 0))
    case PCopy(data, split, k) =>
      if k < |data| then
        s.(buf := s.buf[CopyIndex(s.rear, size, split, k) := data[k]], producer := PCopy(data, split, k + 1))
      else
        var rear := (s.rear + |data|) % size;
        s.(rear := rear, producer := PIdle, written := s.written + data,
           wraps := if rear < s.rear then s.wraps + 1 else s.wraps)
  }

  function MoveConsumer(s: State): State
    requires Enabled(s, Consume)
  {
    var size := |s.buf|;
    match s.consumer
    case CSize(n) => s.(consumer := CCheck(n, s.rear))
    case CCheck(n, rear) =>
      if UsedSize(s.front, rear, size) >= n then s.(consumer := CBranch(n)) else s.(consumer := CShort(n))
    case CBranch(n) =>
      if s.front < s.rear then s.(consumer := CCopy(n, n, false, []))
      else if size - s.front >= n then s.(consumer := CCopy(n, n, false, []))
      else s.(consumer := CCopy(n, n, true, []))
    case CCopy(asked, n, split, dest) =>
      if |dest| < n then
        s.(consumer := CCopy(asked, n, split, dest + [s.buf[CopyIndex(s.front, size, split, |dest|)]]))
      else
        s.(front := (s.front + n) % size, consumer := CIdle, taken := s.taken + dest)
    case CShort(asked) =>
      s.(consumer := if UsedSize(s.front, s.rear, size) == 0 then CIdle else CPick(asked, s.rear, s.wraps))
    case CPick(asked, rear, _) =>
      var usedsize := UsedSize(s.front, rear, size);
      var remainbyte := usedsize - (size - s.front);
      if !(s.front < s.rear) && remainbyte < 0 then s.(consumer := CFault(remainbyte))
      else if usedsize > asked then s.(consumer := COverrun(asked, usedsize))
      else s.(consumer := CCopy(asked, usedsize, !(s.front < s.rear), []))
  }

  // ----- Invariant -----

  /** The copy will touch exactly the first n positions after the cursor. */
  predicate CopyPlan(cursor: int, size: int, split: bool, n: int) {
    if split then size - cursor <= n else cursor + n <= size
  }

  ghost predicate ProducerOk(buf: seq<Byte>, front: int, rear: int, producer: Producer)
    requires Cursors(front, rear, |buf|)
  {
    var size := |buf|;
    match producer
    case PCheck(data, seen) =>
      0 <= seen < size && FreeSize(seen, rear, size) <= FreeSize(front, rear, size)
    case PBranch(data) => |data| <= FreeSize(front, rear, size)
    case PCopy(data, split, k) =>
      && |data| <= FreeSize(front, rear, size) && k <= |data|
      && CopyPlan(rear, size, split, |data|)
      && (forall j :: 0 <= j < k ==> buf[Pos(rear, j, size)] == data[j])
    case _ => true
  }

  ghost predicate ConsumerOk(buf: seq<Byte>, front: int, rear: int, wraps: nat, consumer: Consumer)
    requires Cursors(front, rear, |buf|)
  {
    var size := |buf|;
    match consumer
    case CCheck(n, seen) =>
      0 <= seen < size && UsedSize(front, seen, size) <= UsedSize(front, rear, size)
    case CBranch(n) => n <= UsedSize(front, rear, size)
    case CCopy(asked, n, split, dest) =>
      && n <= UsedSize(front, rear, size) && n <= asked
      && CopyPlan(front, size, split, n)
      && dest <= View(buf, front, rear) && |dest| <= n
    case CPick(_, seen, before) =>
      && 0 <= seen < size && 0 < UsedSize(front, seen, size) <= UsedSize(front, rear, size)
      && (wraps == before <==> seen <= rear) && before <= wraps
    case _ => true
  }

  ghost predicate Inv(s: State) {
    && Cursors(s.front, s.rear, |s.buf|)
    && ProducerOk(s.buf, s.front, s.rear, s.producer)
    && ConsumerOk(s.buf, s.front, s.rear, s.wraps, s.consumer)
    && s.written == s.taken + View(s.buf, s.front, s.rear)
  }

  lemma PlannedIndex(cursor: int, size: int, split: bool, n: int, k: int)
    requires 0 <= cursor < size && 0 <= k < n <= size && CopyPlan(cursor, size, split, n)
    ensures CopyIndex(cursor, size, split, k) == Pos(cursor, k, size)
    ensures 0 <= CopyIndex(cursor, size, split, k) < size
  {
  }

  /** A byte stored in the free space is invisible. */
  lemma ViewUntouched(buf: seq<Byte>, front: int, rear: int, k: int, b: Byte)
    requires Cursors(front, rear, |buf|) && 0 <= k < FreeSize(front, rear, |buf|)
    ensures 0 <= Pos(rear, k, |buf|) < |buf|
    ensures View(buf[Pos(rear, k, |buf|) := b], front, rear) == View(buf, front, rear)
  {
  }

  // A byte stored by the producer, seen from each side.

  lemma StoreKeepsConsumer(buf: seq<Byte>, front: int, rear: int, k: int, b: Byte, wraps: nat, consumer: Consumer)
    requires Cursors(front, rear, |buf|) && 0 <= k < FreeSize(front, rear, |buf|)
    requires ConsumerOk(buf, front, rear, wraps, consumer)
    ensures 0 <= Pos(rear, k, |buf|) < |buf|
    ensures ConsumerOk(buf[Pos(rear, k, |buf|) := b], front, rear, wraps, consumer)
  {
    ViewUntouched(buf, front, rear, k, b);
  }

  lemma StoreAdvancesProducer(buf: seq<Byte>, front: int, rear: int, data: seq<Byte>, split: bool, k: nat)
    requires Cursors(front, rear, |buf|) && k < |data|
    requires ProducerOk(buf, front, rear, PCopy(data, split, k))
    ensures 0 <= Pos(rear, k, |buf|) < |buf|
    ensures ProducerOk(buf[Pos(rear, k, |buf|) := data[k]], front, rear, PCopy(data, split, k + 1))
  {
    assert forall j :: 0 <= j < k ==> Pos(rear, j, |buf|) != Pos(rear, k, |buf|);
  }

  lemma StoreInv(s: State)
    requires Inv(s) && s.producer.PCopy? && s.producer.k < |s.producer.data|
    ensures Enabled(s, Produce) && Inv(MoveProducer(s))
  {
    var PCopy(data, split, k) := s.producer;
    PlannedIndex(s.rear, |s.buf|, split, |data|, k);
    StoreKeepsConsumer(s.buf, s.front, s.rear, k, data[k], s.wraps, s.consumer);
    StoreAdvancesProducer(s.buf, s.front, s.rear, data, split, k);
    ViewUntouched(s.buf, s.front, s.rear, k, data[k]);
  }

  // The producer's store of rear, seen from the consumer.

  lemma UsedGrows(front: int, rear: int, n: int, size: int)
    requires Cursors(front, rear, size) && 0 <= n <= FreeSize(front, rear, size)
    ensures UsedSize(front, Pos(rear, n, size), size) == UsedSize(front, rear, size) + n
  {
  }

  /** While the consumer stays where it is, rear crosses index 0 at most once, and afterwards it
      is below every value it had before. */
  lemma WrapsOnce(front: int, seen: int, rear: int, n: int, size: int)
    requires Cursors(front, rear, size) && 0 <= seen < size && 0 <= n <= FreeSize(front, rear, size)
    requires 0 < UsedSize(front, seen, size) <= UsedSize(front, rear, size)
    ensures seen <= Pos(rear, n, size) <==> seen <= rear && rear <= Pos(rear, n, size)
  {
  }

  lemma PublishKeepsConsumer(buf: seq<Byte>, front: int, rear: int, data: seq<Byte>, wraps: nat, consumer: Consumer)
    requires Cursors(front, rear, |buf|) && |data| <= FreeSize(front, rear, |buf|)
    requires ConsumerOk(buf, front, rear, wraps, consumer)
    requires forall j :: 0 <= j < |data| ==> buf[Pos(rear, j, |buf|)] == data[j]
    ensures var rear' := Pos(rear, |data|, |buf|);
      && Cursors(front, rear', |buf|)
      && View(buf, front, rear') == View(buf, front, rear) + data
      && ConsumerOk(buf, front, rear', if rear' < rear then wraps + 1 else wraps, consumer)
  {
    ViewAppend(buf, buf, front, rear, data);
    UsedGrows(front, rear, |data|, |buf|);
    if consumer.CPick? {
      WrapsOnce(front, consumer.rear, rear, |data|, |buf|);
    }
  }

  lemma PublishedView(taken: seq<Byte>, written: seq<Byte>, view: seq<Byte>, data: seq<Byte>)
    requires written == taken + view
    ensures written + data == taken + (view + data)
  {
  }

  lemma PublishInv(s: State)
    requires Inv(s) && s.producer.PCopy? && s.producer.k == |s.producer.data|
    ensures Enabled(s, Produce) && Inv(MoveProducer(s))
  {
    var data := s.producer.data;
    PosIsMod(s.rear, |data|, |s.buf|);
    var rear := Pos(s.rear, |data|, |s.buf|);
    var s' := s.(rear := rear, producer := PIdle, written := s.written + data,
                 wraps := if rear < s.rear then s.wraps + 1 else s.wraps);
    assert MoveProducer(s) == s';
    PublishKeepsConsumer(s.buf, s.front, s.rear, data, s.wraps, s.consumer);
    PublishedView(s.taken, s.written, View(s.buf, s.front, s.rear), data);
  }

  lemma ProducerInv(s: State)
    requires Inv(s) && s.producer != PIdle
    ensures Enabled(s, Produce) && Inv(MoveProducer(s))
  {
    if s.producer.PCopy? {
      if s.producer.k < |s.producer.data| {
        StoreInv(s);
      } else {
        PublishInv(s);
      }
    }
  }

  lemma LoadInv(s: State)
    requires Inv(s) && s.consumer.CCopy? && |s.consumer.dest| < s.consumer.n
    ensures Enabled(s, Consume) && Inv(MoveConsumer(s))
  {
    var CCopy(_, n, split, dest) := s.consumer;
    ViewAt(s.buf, s.front, s.rear);
    PlannedIndex(s.front, |s.buf|, split, n, |dest|);
  }

  // The consumer's store of front, seen from the producer.

  lemma TakeKeepsProducer(buf: seq<Byte>, front: int, rear: int, n: int, producer: Producer)
    requires Cursors(front, rear, |buf|) && 0 <= n <= UsedSize(front, rear, |buf|)
    requires ProducerOk(buf, front, rear, producer)
    ensures Cursors(Pos(front, n, |buf|), rear, |buf|)
    ensures ProducerOk(buf, Pos(front, n, |buf|), rear, producer)
  {
    UsedShrinks(front, rear, n, |buf|);
  }

  lemma UsedShrinks(front: int, rear: int, n: int, size: int)
    requires Cursors(front, rear, size) && 0 <= n <= UsedSize(front, rear, size)
    ensures UsedSize(Pos(front, n, size), rear, size) == UsedSize(front, rear, size) - n
  {
  }

  lemma TakeView(buf: seq<Byte>, front: int, rear: int, dest: seq<Byte>)
    requires Cursors(front, rear, |buf|) && dest <= View(buf, front, rear)
    ensures |dest| <= UsedSize(front, rear, |buf|) && Cursors(Pos(front, |dest|, |buf|), rear, |buf|)
    ensures View(buf, front, rear) == dest + View(buf, Pos(front, |dest|, |buf|), rear)
  {
    ViewAt(buf, front, rear);
    ViewDrop(buf, front, rear, |dest|);
  }

  lemma TakeInv(s: State)
    requires Inv(s) && s.consumer.CCopy? && |s.consumer.dest| == s.consumer.n
    ensures Enabled(s, Consume) && Inv(MoveConsumer(s))
  {
    var CCopy(_, n, _, dest) := s.consumer;
    PosIsMod(s.front, n, |s.buf|);
    TakeKeepsProducer(s.buf, s.front, s.rear, n, s.producer);
    TakeView(s.buf, s.front, s.rear, dest);
    var rest := View(s.buf, Pos(s.front, n, |s.buf|), s.rear);
    assert s.taken + (dest + rest) == (s.taken + dest) + rest;
  }

  /** The choice in the short-read branch: the lengths are sound unless rear has crossed index 0
      since the size was computed, and fit the caller's array unless that size, which is not the
      one first compared with the request, is beyond the request. */
  lemma PickInv(s: State)
    requires Inv(s) && s.consumer.CPick?
    ensures Enabled(s, Consume) && Inv(MoveConsumer(s))
    ensures MoveConsumer(s).consumer.CFault? <==> s.wraps != s.consumer.wraps
    ensures MoveConsumer(s).consumer.COverrun? <==>
      s.wraps == s.consumer.wraps && UsedSize(s.front, s.consumer.rear, |s.buf|) > s.consumer.asked
  {
  }

  /** A short read that has left one of the two arrays. */
  predicate Broken(consumer: Consumer) {
    consumer.CFault? || consumer.COverrun?
  }

  lemma ConsumerInv(s: State)
    requires Inv(s) && s.consumer != CIdle && !Broken(s.consumer)
    ensures Enabled(s, Consume) && Inv(MoveConsumer(s))
  {
    if s.consumer.CPick? {
      PickInv(s);
    } else if s.consumer.CCopy? {
      if |s.consumer.dest| < s.consumer.n {
        LoadInv(s);
      } else {
        TakeInv(s);
      }
    }
  }

  lemma StepInv(s: State, step: Step)
    requires Inv(s) && Enabled(s, step)
    ensures Inv(Apply(s, step))
  {
    match step {
      case Produce => ProducerInv(s);
      case Consume => ConsumerInv(s);
      case _ =>
    }
  }

  // ----- Runs -----

  ghost predicate Runs(s: State, steps: seq<Step>)
    decreases |steps|
  {
    steps == [] || (Enabled(s, steps[0]) && Runs(Apply(s, steps[0]), steps[1..]))
  }

  ghost function End(s: State, steps: seq<Step>): State
    requires Runs(s, steps)
    decreases |steps|
  {
    if steps == [] then s else End(Apply(s, steps[0]), steps[1..])
  }

  lemma {:induction false} RunInv(s: State, steps: seq<Step>)
    requires Inv(s) && Runs(s, steps)
    ensures Inv(End(s, steps))
    decreases |steps|
  {
    if steps != [] {
      StepInv(s, steps[0]);
      RunInv(Apply(s, steps[0]), steps[1..]);
    }
  }

  /** In every interleaving the consumer gets the producer's bytes in order, and the published
      bytes not yet taken are exactly the live content of the buffer. */
  lemma FifoBytes(s0: State, steps: seq<Step>)
    requires Init(s0) && Runs(s0, steps)
    ensures var s := End(s0, steps);
      && Cursors(s.front, s.rear, |s.buf|)
      && s.taken <= s.written && s.written == s.taken + View(s.buf, s.front, s.rear)
      && |s.written| - |s.taken| <= |s.buf| - 1
  {
    RunInv(s0, steps);
    var s := End(s0, steps);
    ViewAt(s.buf, s.front, s.rear);
  }

  /** No call gets stuck or leaves the ring or the caller's array, except a broken short read, and
      the two sides never touch the same byte. */
  lemma SidesStayApart(s0: State, steps: seq<Step>)
    requires Init(s0) && Runs(s0, steps)
    ensures var s := End(s0, steps);
      && (s.producer != PIdle ==> Enabled(s, Produce))
      && (s.consumer != CIdle && !Broken(s.consumer) ==> Enabled(s, Consume))
      && (s.consumer.CCopy? ==> |s.consumer.dest| <= s.consumer.n <= s.consumer.asked)
      && (s.producer.PCopy? && s.producer.k < |s.producer.data| && s.consumer.CCopy? && |s.consumer.dest| < s.consumer.n ==>
            CopyIndex(s.rear, |s.buf|, s.producer.split, s.producer.k)
            != CopyIndex(s.front, |s.buf|, s.consumer.split, |s.consumer.dest|))
  {
    RunInv(s0, steps);
    var s := End(s0, steps);
    var size := |s.buf|;
    if s.producer != PIdle {
      ProducerInv(s);
    }
    if s.consumer != CIdle && !Broken(s.consumer) {
      ConsumerInv(s);
    }
    if s.producer.PCopy? && s.producer.k < |s.producer.data| && s.consumer.CCopy? && |s.consumer.dest| < s.consumer.n {
      PlannedIndex(s.rear, size, s.producer.split, |s.producer.data|, s.producer.k);
      PlannedIndex(s.front, size, s.consumer.split, s.consumer.n, |s.consumer.dest|);
    }
  }

  // ----- The short-read branch -----

  ghost predicate Reachable(s: State) {
    exists s0: State, steps: seq<Step> :: Init(s0) && Runs(s0, steps) && End(s0, steps) == s
  }

  lemma ReachableInv(s: State)
    requires Reachable(s)
    ensures Inv(s)
  {
    var s0: State, steps: seq<Step> :| Init(s0) && Runs(s0, steps) && End(s0, steps) == s;
    RunInv(s0, steps);
  }

  /** In every run the short-read branch stays inside both arrays if and only if, first, no
      publication between its two reads of rear has moved rear across index 0 and, second, the
      size it computed again is still within the request. Otherwise memcpy is handed a negative
      length, or more than the caller's array holds. */
  lemma ShortReadExactly(s: State)
    requires Reachable(s) && s.consumer.CPick?
    ensures Enabled(s, Consume)
    ensures var CPick(asked, rear, wraps) := s.consumer; var after := MoveConsumer(s).consumer;
      && (after.CCopy? <==> s.wraps == wraps && UsedSize(s.front, rear, |s.buf|) <= asked)
      && (after.CFault? <==> s.wraps != wraps)
      && (after.COverrun? <==> s.wraps == wraps && UsedSize(s.front, rear, |s.buf|) > asked)
  {
    ReachableInv(s);
    PickInv(s);
  }

  /** So a Dequeue that is not broken never takes more than it was asked for. */
  lemma TakesAtMostAsked(s: State)
    requires Reachable(s) && s.consumer.CCopy? && |s.consumer.dest| == s.consumer.n
    ensures Enabled(s, Consume)
    ensures var taken := MoveConsumer(s).taken; s.taken <= taken && |taken| - |s.taken| <= s.consumer.asked
  {
    ReachableInv(s);
    TakeInv(s);
  }

  lemma {:induction false} RunsSnoc(s: State, steps: seq<Step>, last: Step)
    requires Runs(s, steps) && Enabled(End(s, steps), last)
    ensures Runs(s, steps + [last]) && End(s, steps + [last]) == Apply(End(s, steps), last)
    decreases |steps|
  {
    if steps == [] {
      assert Runs(Apply(s, last), []);
      assert [last][1..] == [];
    } else {
      RunsSnoc(Apply(s, steps[0]), steps[1..], last);
      assert (steps + [last])[1..] == steps[1..] + [last];
    }
  }

  lemma Walk(s: State, step: Step) returns (s': State)
    requires Reachable(s) && Enabled(s, step)
    ensures Reachable(s') && s' == Apply(s, step)
  {
    var s0: State, steps: seq<Step> :| Init(s0) && Runs(s0, steps) && End(s0, steps) == s;
    RunsSnoc(s0, steps, step);
    s' := Apply(s, step);
  }

  /** One Enqueue of one byte while the consumer stands still. */
  lemma SoloEnqueue(s: State, b: Byte) returns (s': State)
    requires Reachable(s) && s.producer == PIdle
    requires Cursors(s.front, s.rear, |s.buf|) && FreeSize(s.front, s.rear, |s.buf|) >= 1
    ensures Reachable(s')
    ensures var rear := (s.rear + 1) % |s.buf|;
      s' == s.(buf := s.buf[s.rear := b], rear := rear, written := s.written + [b],
               wraps := if rear < s.rear then s.wraps + 1 else s.wraps)
  {
    var s1 := Walk(s, BeginEnqueue([b]));
    s1 := Walk(s1, Produce);
    s1 := Walk(s1, Produce);
    s1 := Walk(s1, Produce);
    s1 := Walk(s1, Produce);
    s' := Walk(s1, Produce);
  }

  /** One Dequeue of one byte while the producer stands still. */
  lemma SoloDequeue(s: State) returns (s': State)
    requires Reachable(s) && s.consumer == CIdle
    requires Cursors(s.front, s.rear, |s.buf|) && UsedSize(s.front, s.rear, |s.buf|) >= 1
    ensures Reachable(s')
    ensures s' == s.(front := (s.front + 1) % |s.buf|, taken := s.taken + [s.buf[s.front]])
  {
    var s1 := Walk(s, BeginDequeue(1));
    s1 := Walk(s1, Consume);
    s1 := Walk(s1, Consume);
    s1 := Walk(s1, Consume);
    s1 := Walk(s1, Consume);
    s' := Walk(s1, Consume);
  }

  /** One byte in the middle of a buffer of three. */
  lemma MiddleByte(b: Byte) returns (s: State)
    ensures Reachable(s) && |s.buf| == 3 && s.front == 1 && s.rear == 2
    ensures s.producer == PIdle && s.consumer == CIdle
  {
    var s0 := State([b, b, b], 0, 0, PIdle, CIdle, [], [], 0);
    assert Runs(s0, []) && End(s0, []) == s0;
    var s1 := SoloEnqueue(s0, b);
    var s2 := SoloDequeue(s1);
    s := SoloEnqueue(s2, b);
  }

  /** A Dequeue of two bytes has found one and enters the short-read branch. */
  lemma AskTwo(s: State) returns (s': State)
    requires Reachable(s) && Cursors(s.front, s.rear, |s.buf|) && s.consumer == CIdle
    requires UsedSize(s.front, s.rear, |s.buf|) == 1
    ensures Reachable(s') && s' == s.(consumer := CShort(2))
  {
    var s1 := Walk(s, BeginDequeue(2));
    var s2 := Walk(s1, Consume);
    s' := Walk(s2, Consume);
  }

  /** A run that ends with a negative length: one Enqueue of one byte, between the two reads of a
      Dequeue that asks for two bytes and finds one, on a buffer of three. */
  lemma ShortReadBreaks(b: Byte) returns (s: State)
    ensures Reachable(s) && s.consumer == CFault(-1)
  {
    var s1 := MiddleByte(b);
    var s2 := AskTwo(s1);
    var s3 := Walk(s2, Consume);
    var s4 := SoloEnqueue(s3, b);
    s := Walk(s4, Consume);
  }

  /** One byte in a new buffer. */
  lemma FirstByte(buf: seq<Byte>, b: Byte) returns (s: State)
    requires |buf| >= 2
    ensures Reachable(s) && |s.buf| == |buf| && s.front == 0 && s.rear == 1
    ensures s.producer == PIdle && s.consumer == CIdle && s.wraps == 0
  {
    var s0 := State(buf, 0, 0, PIdle, CIdle, [], [], 0);
    assert Runs(s0, []) && End(s0, []) == s0;
    s := SoloEnqueue(s0, b);
  }

  /** A run that overruns the caller's array without any wrap: two Enqueue calls of one byte,
      between the two size computations of a Dequeue that asks for two bytes and finds one, make
      it copy three. */
  lemma ShortReadOverruns(b: Byte) returns (s: State)
    ensures Reachable(s) && s.consumer == COverrun(2, 3) && s.wraps == 0
  {
    var s1 := FirstByte([b, b, b, b, b, b], b);
    var s2 := AskTwo(s1);
    var s3 := SoloEnqueue(s2, b);
    var s4 := SoloEnqueue(s3, b);
    var s5 := Walk(s4, Consume);
    s := Walk(s5, Consume);
  }

  predicate InShortBranch(consumer: Consumer) {
    consumer.CShort? || consumer.CPick? || Broken(consumer)
  }

  /** A consumer that asks for no more than a size it has seen is out of reach of the branch. */
  ghost predicate Served(s: State, n: nat) {
    match s.consumer
    case CSize(m) => m == n && n <= UsedSize(s.front, s.rear, |s.buf|)
    case CCheck(m, rear) => m == n && n <= UsedSize(s.front, rear, |s.buf|)
    case _ => !InShortBranch(s.consumer)
  }

  predicate NoDequeue(steps: seq<Step>) {
    forall i :: 0 <= i < |steps| ==> !steps[i].BeginDequeue?
  }

  /** A step that is not the beginning of a Dequeue. */
  lemma StepServed(s: State, step: Step, n: nat)
    requires Inv(s) && Enabled(s, step) && !step.BeginDequeue?
    ensures Served(s, n) ==> Served(Apply(s, step), n)
    ensures var s' := Apply(s, step);
      s.consumer == CIdle ==>
        s'.consumer == CIdle && UsedSize(s.front, s.rear, |s.buf|) <= UsedSize(s'.front, s'.rear, |s'.buf|)
  {
    if step == Produce && s.producer.PCopy? && s.producer.k == |s.producer.data| {
      PosIsMod(s.rear, |s.producer.data|, |s.buf|);
      UsedGrows(s.front, s.rear, |s.producer.data|, |s.buf|);
    }
  }

  lemma {:induction false} RunServed(s: State, steps: seq<Step>, n: nat)
    requires Inv(s) && Runs(s, steps) && NoDequeue(steps)
    ensures Served(s, n) ==> Served(End(s, steps), n)
    ensures var s' := End(s, steps);
      s.consumer == CIdle ==>
        s'.consumer == CIdle && UsedSize(s.front, s.rear, |s.buf|) <= UsedSize(s'.front, s'.rear, |s'.buf|)
    decreases |steps|
  {
    if steps != [] {
      StepServed(s, steps[0], n);
      StepInv(s, steps[0]);
      RunServed(Apply(s, steps[0]), steps[1..], n);
    }
  }

  /** A consumer that learns the used size, and after whatever the producer does meanwhile asks
      for no more than that, never enters the short-read branch during that call. */
  lemma SeenSizeIsServed(s: State, before: seq<Step>, n: nat, after: seq<Step>)
    requires Reachable(s) && s.consumer == CIdle && n <= UsedSize(s.front, s.rear, |s.buf|)
    requires Runs(s, before) && NoDequeue(before) && NoDequeue(after)
    requires var s1 := End(s, before); Enabled(s1, BeginDequeue(n)) && Runs(Apply(s1, BeginDequeue(n)), after)
    ensures !InShortBranch(End(Apply(End(s, before), BeginDequeue(n)), after).consumer)
  {
    ReachableInv(s);
    RunInv(s, before);
    RunServed(s, before, n);
    var s1 := End(s, before);
    StepInv(s1, BeginDequeue(n));
    RunServed(Apply(s1, BeginDequeue(n)), after, n);
  }
}
