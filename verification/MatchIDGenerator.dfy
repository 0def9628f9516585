/** The match identifier generator: a clock reading, a server number and a sequence number in
    one signed 64-bit integer.

    The clock is a trace of readings, milliseconds since the custom epoch, in any order. A call
    consumes readings from the front; when the trace ends before the call returns, the call is
    still waiting. */
module MatchIDGenerator {
  import opened Bits
  import opened Wrappers

  const MAX_SERVER_ID: nat := 0x3FF
  const MAX_SEQUENCE: nat := 0xFFF

  const TIMESTAMP_UNIT: nat := 0x40_0000                   // 1 << TIMESTAMP_SHIFT
  const SERVER_ID_UNIT: nat := 0x1000                      // 1 << SERVER_ID_SHIFT
  const TIMESTAMP_LIMIT: nat := 0x200_0000_0000            // 2^41
  const WORD: nat := 0x1_0000_0000_0000_0000               // 2^64
  const SIGN: nat := 0x8000_0000_0000_0000                 // 2^63

  // ----- Bit packing -----

  /** static_cast<__int64> of a 64-bit word. */
  function ToSigned(w: nat): int {
    if w < SIGN then w else w - WORD
  }

  function MakeWord(timestamp: nat, serverID: nat, sequence: nat): nat {
    Or(Or((timestamp * TIMESTAMP_UNIT) % WORD, serverID * SERVER_ID_UNIT), sequence)
  }

  function MakeID(timestamp: nat, serverID: nat, sequence: nat): int {
    ToSigned(MakeWord(timestamp, serverID, sequence))
  }

  predicate InFields(serverID: nat, sequence: nat) {
    serverID <= MAX_SERVER_ID && sequence <= MAX_SEQUENCE
  }

  lemma UnitsArePowers()
    ensures Pow2(12) == SERVER_ID_UNIT && Pow2(22) == TIMESTAMP_UNIT
  {
  }

  /** The three fields do not overlap, whatever the timestamp. */
  lemma WordIsSum(timestamp: nat, serverID: nat, sequence: nat)
    requires InFields(serverID, sequence) && timestamp < 2 * TIMESTAMP_LIMIT
    ensures MakeWord(timestamp, serverID, sequence)
         == timestamp * TIMESTAMP_UNIT + serverID * SERVER_ID_UNIT + sequence
  {
    assert (timestamp * TIMESTAMP_UNIT) % WORD == timestamp * TIMESTAMP_UNIT;
    UpperFields(timestamp, serverID);
    LowerField(1024 * timestamp + serverID, sequence);
  }

  lemma UpperFields(timestamp: nat, serverID: nat)
    requires serverID <= MAX_SERVER_ID
    ensures Or(timestamp * TIMESTAMP_UNIT, serverID * SERVER_ID_UNIT) == (1024 * timestamp + serverID) * SERVER_ID_UNIT
  {
    UnitsArePowers();
    ShlIsProduct(timestamp, 22);
    OrDisjoint(timestamp, serverID * SERVER_ID_UNIT, 22);
  }

  lemma LowerField(upper: nat, sequence: nat)
    requires sequence <= MAX_SEQUENCE
    ensures Or(upper * SERVER_ID_UNIT, sequence) == upper * SERVER_ID_UNIT + sequence
  {
    UnitsArePowers();
    ShlIsProduct(upper, 12);
    OrDisjoint(upper, sequence, 12);
  }

  /** As a signed identifier the word is non-negative exactly below 2^41 milliseconds (69 years);
      from there on the sign bit is set and later identifiers sort before earlier ones. */
  lemma SignExactly(timestamp: nat, serverID: nat, sequence: nat)
    requires InFields(serverID, sequence) && timestamp < 2 * TIMESTAMP_LIMIT
    ensures MakeID(timestamp, serverID, sequence) >= 0 <==> timestamp < TIMESTAMP_LIMIT
  {
    WordIsSum(timestamp, serverID, sequence);
  }

  /** The three fields can be read back from the identifier. */
  lemma FieldsDecode(timestamp: nat, serverID: nat, sequence: nat)
    requires InFields(serverID, sequence) && timestamp < TIMESTAMP_LIMIT
    ensures var id := MakeID(timestamp, serverID, sequence);
      && id >= 0
      && id / TIMESTAMP_UNIT == timestamp
      && id / SERVER_ID_UNIT % (MAX_SERVER_ID + 1) == serverID
      && id % SERVER_ID_UNIT == sequence
  {
    WordIsSum(timestamp, serverID, sequence);
    DivModUnique(timestamp, serverID * SERVER_ID_UNIT + sequence, TIMESTAMP_UNIT);
    DivModUnique(1024 * timestamp + serverID, sequence, SERVER_ID_UNIT);
    DivModUnique(timestamp, serverID, 1024);
  }

  /** A position in the order of issue. */
  datatype Stamp = Stamp(timestamp: nat, sequence: nat)

  predicate Earlier(a: Stamp, b: Stamp) {
    a.timestamp < b.timestamp || (a.timestamp == b.timestamp && a.sequence < b.sequence)
  }

  /** Below 2^41 the identifiers of one server sort exactly like their stamps. */
  lemma OrderIsStampOrder(serverID: nat, a: Stamp, b: Stamp)
    requires InFields(serverID, a.sequence) && a.timestamp < TIMESTAMP_LIMIT
    requires InFields(serverID, b.sequence) && b.timestamp < TIMESTAMP_LIMIT
    ensures MakeID(a.timestamp, serverID, a.sequence) < MakeID(b.timestamp, serverID, b.sequence) <==> Earlier(a, b)
  {
    WordIsSum(a.timestamp, serverID, a.sequence);
    WordIsSum(b.timestamp, serverID, b.sequence);
  }

  // ----- The generator as a function of the clock trace -----

  datatype Outcome = Waiting | Issued(stamp: Stamp, rest: seq<nat>)

  /** WaitNextMillisecond: the first reading beyond last, and the readings after it. */
  function FirstBeyond(clock: seq<nat>, last: nat): Outcome
    decreases |clock|
  {
    if clock == [] then Waiting
    else if clock[0] <= last then FirstBeyond(clock[1..], last)
    else Issued(Stamp(clock[0], 0), clock[1..])
  }

  function Next(g: Stamp, clock: seq<nat>): Outcome {
    if clock == [] then Waiting
    else
      var nowMs := if clock[0] < g.timestamp then g.timestamp else clock[0];
      if nowMs != g.timestamp then Issued(Stamp(nowMs, 0), clock[1..])
      else if g.sequence + 1 > MAX_SEQUENCE then FirstBeyond(clock[1..], g.timestamp)
      else Issued(Stamp(nowMs, g.sequence + 1), clock[1..])
  }

  function MaxReading(x: nat, clock: seq<nat>): nat
    decreases |clock|
  {
    if clock == [] then x else MaxReading(if clock[0] > x then clock[0] else x, clock[1..])
  }

  /** The part of the trace a call consumed. */
  function Consumed(clock: seq<nat>, rest: seq<nat>): seq<nat>
    requires |rest| <= |clock|
  {
    clock[..|clock| - |rest|]
  }

  lemma {:induction false} FirstBeyondFacts(clock: seq<nat>, last: nat)
    ensures match FirstBeyond(clock, last)
            case Waiting => forall i :: 0 <= i < |clock| ==> clock[i] <= last
            case Issued(stamp, rest) =>
              && |rest| < |clock| && rest == clock[|clock| - |rest|..]
              && stamp.timestamp > last && stamp.sequence == 0 && stamp.timestamp == clock[|clock| - |rest| - 1]
              && stamp.timestamp == MaxReading(last, Consumed(clock, rest))
    decreases |clock|
  {
    if clock != [] {
      FirstBeyondFacts(clock[1..], last);
      if clock[0] <= last {
        match FirstBeyond(clock[1..], last) {
          case Waiting =>
            assert forall i :: 1 <= i < |clock| ==> clock[i] == clock[1..][i - 1];
          case Issued(stamp, rest) =>
            assert Consumed(clock, rest)[1..] == Consumed(clock[1..], rest);
        }
      } else {
        assert Consumed(clock, clock[1..]) == [clock[0]];
        assert [clock[0]][1..] == [];
      }
    }
  }

  /** One call: the stamp moves forward whatever the clock does, and its timestamp is the
      maximum of all readings so far. */
  lemma NextFacts(g: Stamp, clock: seq<nat>)
    requires g.sequence <= MAX_SEQUENCE && Next(g, clock).Issued?
    ensures var Issued(stamp, rest) := Next(g, clock);
      && |rest| < |clock| && rest == clock[|clock| - |rest|..]
      && Earlier(g, stamp) && stamp.sequence <= MAX_SEQUENCE
      && stamp.timestamp == MaxReading(g.timestamp, Consumed(clock, rest))
  {
    FirstBeyondFacts(clock[1..], g.timestamp);
    var rest := Next(g, clock).rest;
    assert Consumed(clock, rest)[1..] == Consumed(clock[1..], rest);
  }

  /** A stamp with a new timestamp starts again at sequence 0, one with the same timestamp has the next
      sequence; and which of the two it is depends on the first reading and on whether the sequence is
      used up. A call keeps waiting exactly if the trace is empty, or the sequence is used up and no
      reading passes the last timestamp. */
  lemma NextExactly(g: Stamp, clock: seq<nat>)
    requires g.sequence <= MAX_SEQUENCE
    ensures Next(g, clock).Waiting? <==>
      clock == [] || (g.sequence == MAX_SEQUENCE && forall i :: 0 <= i < |clock| ==> clock[i] <= g.timestamp)
    ensures Next(g, clock).Issued? ==>
      var Issued(stamp, rest) := Next(g, clock);
      && stamp.sequence == (if stamp.timestamp == g.timestamp then g.sequence + 1 else 0)
      && (stamp.timestamp == g.timestamp <==> clock[0] <= g.timestamp && g.sequence < MAX_SEQUENCE)
      && (clock[0] > g.timestamp ==> stamp.timestamp == clock[0])
      && (clock[0] > g.timestamp || g.sequence < MAX_SEQUENCE ==> rest == clock[1..])
  {
    if clock != [] {
      var tail := clock[1..];
      FirstBeyondFacts(tail, g.timestamp);
      assert forall i :: 1 <= i < |clock| ==> clock[i] == tail[i - 1];
      assert forall i :: 0 <= i < |tail| ==> tail[i] == clock[i + 1];
    }
  }

  /** Every stamp issued on a clock trace by calls made one after another. */
  function Stamps(g: Stamp, clock: seq<nat>): seq<Stamp>
    requires g.sequence <= MAX_SEQUENCE
    decreases |clock|
  {
    match Next(g, clock)
    case Waiting => []
    case Issued(stamp, rest) =>
      NextFacts(g, clock);
      [stamp] + Stamps(stamp, rest)
  }

  lemma {:induction false} MaxReadingBound(x: nat, clock: seq<nat>, limit: nat)
    requires x < limit && forall i :: 0 <= i < |clock| ==> clock[i] < limit
    ensures MaxReading(x, clock) < limit
    decreases |clock|
  {
    if clock != [] {
      MaxReadingBound(if clock[0] > x then clock[0] else x, clock[1..], limit);
    }
  }

  lemma {:induction false} StampsIncrease(g: Stamp, clock: seq<nat>, limit: nat)
    requires g.sequence <= MAX_SEQUENCE && g.timestamp < limit
    requires forall i :: 0 <= i < |clock| ==> clock[i] < limit
    ensures forall i :: 0 <= i < |Stamps(g, clock)| ==>
      var s := Stamps(g, clock)[i]; Earlier(g, s) && s.sequence <= MAX_SEQUENCE && s.timestamp < limit
    ensures forall i, j :: 0 <= i < j < |Stamps(g, clock)| ==> Earlier(Stamps(g, clock)[i], Stamps(g, clock)[j])
    decreases |clock|
  {
    match Next(g, clock) {
      case Waiting =>
      case Issued(stamp, rest) =>
        NextFacts(g, clock);
        MaxReadingBound(g.timestamp, Consumed(clock, rest), limit);
        StampsIncrease(stamp, rest, limit);
        assert Stamps(g, clock) == [stamp] + Stamps(stamp, rest);
    }
  }

  /** The identifiers a server issues on a clock trace. */
  function IDs(serverID: nat, g: Stamp, clock: seq<nat>): seq<int>
    requires g.sequence <= MAX_SEQUENCE
  {
    var stamps := Stamps(g, clock);
    seq(|stamps|, i requires 0 <= i < |stamps| => MakeID(stamps[i].timestamp, serverID, stamps[i].sequence))
  }

  /** For every clock trace, jumps backwards included, issued identifiers strictly increase as
      signed 64-bit integers. */
  lemma IDsIncrease(serverID: nat, g: Stamp, clock: seq<nat>)
    requires InFields(serverID, g.sequence) && g.timestamp < TIMESTAMP_LIMIT
    requires forall i :: 0 <= i < |clock| ==> clock[i] < TIMESTAMP_LIMIT
    ensures forall i, j :: 0 <= i < j < |IDs(serverID, g, clock)| ==> IDs(serverID, g, clock)[i] < IDs(serverID, g, clock)[j]
  {
    var stamps := Stamps(g, clock);
    StampsIncrease(g, clock, TIMESTAMP_LIMIT);
    forall i, j | 0 <= i < j < |stamps| ensures IDs(serverID, g, clock)[i] < IDs(serverID, g, clock)[j] {
      OrderIsStampOrder(serverID, stamps[i], stamps[j]);
    }
  }

  /** Generators with different server numbers never issue the same identifier. */
  lemma ServersNeverCollide(server1: nat, g1: Stamp, clock1: seq<nat>, server2: nat, g2: Stamp, clock2: seq<nat>)
    requires InFields(server1, g1.sequence) && g1.timestamp < TIMESTAMP_LIMIT
    requires InFields(server2, g2.sequence) && g2.timestamp < TIMESTAMP_LIMIT
    requires forall i :: 0 <= i < |clock1| ==> clock1[i] < TIMESTAMP_LIMIT
    requires forall i :: 0 <= i < |clock2| ==> clock2[i] < TIMESTAMP_LIMIT
    requires server1 != server2
    ensures forall i, j :: 0 <= i < |IDs(server1, g1, clock1)| && 0 <= j < |IDs(server2, g2, clock2)| ==>
      IDs(server1, g1, clock1)[i] != IDs(server2, g2, clock2)[j]
  {
    StampsIncrease(g1, clock1, TIMESTAMP_LIMIT);
    StampsIncrease(g2, clock2, TIMESTAMP_LIMIT);
    var s1, s2 := Stamps(g1, clock1), Stamps(g2, clock2);
    forall i, j | 0 <= i < |s1| && 0 <= j < |s2| ensures IDs(server1, g1, clock1)[i] != IDs(server2, g2, clock2)[j] {
      FieldsDecode(s1[i].timestamp, server1, s1[i].sequence);
      FieldsDecode(s2[j].timestamp, server2, s2[j].sequence);
    }
  }

  /** At most 4096 identifiers carry the same timestamp: two of them are fewer than 4096 issues
      apart. */
  lemma {:induction false} SameMillisecond(g: Stamp, clock: seq<nat>, i: nat, j: nat)
    requires g.sequence <= MAX_SEQUENCE
    requires i <= j < |Stamps(g, clock)| && Stamps(g, clock)[i].timestamp == Stamps(g, clock)[j].timestamp
    ensures Stamps(g, clock)[i].sequence + (j - i) <= Stamps(g, clock)[j].sequence
    ensures j - i <= MAX_SEQUENCE
    decreases j - i
  {
    var limit := MaxReading(g.timestamp, clock) + 1;
    MaxReadingCovers(g.timestamp, clock);
    StampsIncrease(g, clock, limit);
    if i < j {
      var s := Stamps(g, clock);
      assert Earlier(s[i], s[j - 1]) || i == j - 1;
      assert Earlier(s[j - 1], s[j]);
      SameMillisecond(g, clock, i, j - 1);
    }
  }

  lemma {:induction false} MaxReadingCovers(x: nat, clock: seq<nat>)
    ensures x <= MaxReading(x, clock)
    ensures forall i :: 0 <= i < |clock| ==> clock[i] <= MaxReading(x, clock)
    decreases |clock|
  {
    if clock != [] {
      MaxReadingCovers(if clock[0] > x then clock[0] else x, clock[1..]);
      assert forall i :: 1 <= i < |clock| ==> clock[i] == clock[1..][i - 1];
    }
  }

  // ----- The class -----

  class MatchIDGenerator {
    var lastTimestamp: nat
    var sequence: nat
    const serverID: nat

    ghost predicate Valid()
      reads this
    {
      InFields(serverID, sequence)
    }

    constructor (serverID: nat)
      requires serverID <= MAX_SERVER_ID
      ensures Valid() && lastTimestamp == 0 && sequence == 0 && this.serverID == serverID
    {
      this.serverID := serverID;
      lastTimestamp, sequence := 0, 0;
    }

    /** Reads the clock until it shows a time beyond lastTimestamp. */
    method WaitNextMillisecond(clock: seq<nat>, last: nat) returns (nowMs: Option<nat>, rest: seq<nat>)
      ensures FirstBeyond(clock, last) == match nowMs case None => Waiting case Some(t) => Issued(Stamp(t, 0), rest)
    {
      rest := clock;
      while rest != [] && rest[0] <= last
        invariant FirstBeyond(rest, last) == FirstBeyond(clock, last)
        decreases |rest|
      {
        rest := rest[1..];
      }
      if rest == [] {
        nowMs := None;
      } else {
        nowMs := Some(rest[0]);
        rest := rest[1..];
      }
    }

    /** One call on a non-empty trace. The identifier carries the next stamp; if the trace ends
        first, the call has not returned and no identifier exists. */
    method Create(clock: seq<nat>) returns (id: Option<int>, rest: seq<nat>)
      requires Valid() && clock != []
      modifies this
      ensures match old(Next(Stamp(lastTimestamp, sequence), clock))
              case Waiting => id == None && lastTimestamp == old(lastTimestamp)
              case Issued(stamp, after) =>
                && Valid() && Stamp(lastTimestamp, sequence) == stamp && rest == after
                && id == Some(MakeID(stamp.timestamp, serverID, stamp.sequence))
                && Earlier(old(Stamp(lastTimestamp, sequence)), stamp)
                && sequence == (if lastTimestamp == old(lastTimestamp) then old(sequence) + 1 else 0)
                && |rest| < |clock| && lastTimestamp == MaxReading(old(lastTimestamp), Consumed(clock, rest))
    {
      ghost var g := Stamp(lastTimestamp, sequence);
      NextExactly(g, clock);
      if Next(g, clock).Issued? {
        NextFacts(g, clock);
      }
      var nowMs := clock[0];
      rest := clock[1..];
      if nowMs < lastTimestamp {
        nowMs := lastTimestamp;
      }
      if nowMs == lastTimestamp {
        sequence := sequence + 1;
        if sequence > MAX_SEQUENCE {
          var next;
          next, rest := WaitNextMillisecond(rest, lastTimestamp);
          if next == None {
            return None, rest;
          }
          nowMs := next.value;
          sequence := 0;
        }
      } else {
        sequence := 0;
      }
      lastTimestamp := nowMs;
      id := Some(MakeID(nowMs, serverID, sequence));
    }
  }
}
