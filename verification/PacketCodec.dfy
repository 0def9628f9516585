/** SBuffer and the typed operators of CPacket: little-endian values written and read in place
    through two cursors. Floating-point values travel as their bit patterns. */
module PacketCodec {
  import Bits
  import opened Bytes
  import opened Wrappers

  // ----- Values and their bytes -----

  datatype Kind = U8 | I8 | Char8 | I16 | U16 | U32 | I32 | Long32 | Float32 | I64 | Double64

  function Width(k: Kind): (w: nat)
    ensures 1 <= w <= 8
  {
    match k
    case U8 => 1 case I8 => 1 case Char8 => 1
    case I16 => 2 case U16 => 2
    case U32 => 4 case I32 => 4 case Long32 => 4 case Float32 => 4
    case I64 => 8 case Double64 => 8
  }

  predicate IsSigned(k: Kind) {
    k.I8? || k.Char8? || k.I16? || k.I32? || k.Long32? || k.I64?
  }

  /** 256 to the w. */
  function Span(w: nat): (n: nat)
    ensures n >= 1
  {
    if w == 0 then 1 else 256 * Span(w - 1)
  }

  predicate InRange(k: Kind, v: int) {
    if IsSigned(k) then 0 <= 2 * v + Span(Width(k)) < 2 * Span(Width(k)) else 0 <= v < Span(Width(k))
  }

  datatype RawValue = Value(kind: Kind, v: int)

  type TypedValue = x: RawValue | InRange(x.kind, x.v) witness Value(U8, 0)

  /** The w low bytes of a word, least significant first. */
  function LittleEndian(word: nat, w: nat): (bytes: seq<Byte>)
    ensures |bytes| == w
  {
    if w == 0 then [] else [word % 256] + LittleEndian(word / 256, w - 1)
  }

  function FromLittleEndian(bytes: seq<Byte>): nat
    decreases |bytes|
  {
    if bytes == [] then 0 else bytes[0] + 256 * FromLittleEndian(bytes[1..])
  }

  lemma {:induction false} LittleEndianRoundTrip(word: nat, w: nat)
    requires word < Span(w)
    ensures FromLittleEndian(LittleEndian(word, w)) == word
    decreases w
  {
    if w > 0 {
      LittleEndianRoundTrip(word / 256, w - 1);
      assert LittleEndian(word, w)[1..] == LittleEndian(word / 256, w - 1);
    }
  }

  /** Every byte string is the encoding of the word it decodes to. */
  lemma {:induction false} LittleEndianOnto(bytes: seq<Byte>)
    ensures FromLittleEndian(bytes) < Span(|bytes|)
    ensures LittleEndian(FromLittleEndian(bytes), |bytes|) == bytes
    decreases |bytes|
  {
    if bytes != [] {
      LittleEndianOnto(bytes[1..]);
      assert bytes == [bytes[0]] + bytes[1..];
    }
  }

  /** Two's complement of the value's width. */
  function Encode(x: TypedValue): (bytes: seq<Byte>)
    ensures |bytes| == Width(x.kind)
  {
    LittleEndian(if x.v < 0 then x.v + Span(Width(x.kind)) else x.v, Width(x.kind))
  }

  function Decode(k: Kind, bytes: seq<Byte>): int
    requires |bytes| == Width(k)
  {
    var word := FromLittleEndian(bytes);
    if IsSigned(k) && 2 * word >= Span(Width(k)) then word - Span(Width(k)) else word
  }

  lemma {:induction false} LittleEndianAt(word: nat, w: nat, i: nat)
    requires i < w
    ensures LittleEndian(word, w)[i] == word / Span(i) % 256
    decreases w
  {
    if i > 0 {
      LittleEndianAt(word / 256, w - 1, i - 1);
      DivTwice(word, Span(i - 1));
    }
  }

  lemma Regroup(b: nat, q: nat)
    ensures q * (256 * b) == 256 * (b * q)
  {
  }

  /** Dividing by 256 and then by b is dividing by the product. */
  lemma DivTwice(v: nat, b: nat)
    requires b > 0
    ensures v / 256 / b == v / (256 * b)
  {
    var x, y := v / 256, v % 256;
    var q, r := Bits.SplitBy(x, b);
    Regroup(b, q);
    assert v == q * (256 * b) + (256 * r + y);
    Bits.DivModUnique(q, 256 * r + y, 256 * b);
    Bits.DivModUnique(q, r, b);
  }

  /** Byte i of a value, the least significant first, is the value divided by 256 to the i, rounded
      down, modulo 256; for a negative value that is its two's complement. */
  lemma EncodeAt(x: TypedValue, i: nat)
    requires i < Width(x.kind)
    ensures Encode(x)[i] == Floor(x.v, Span(i)) % 256
  {
    var w := Width(x.kind);
    if x.v < 0 {
      LittleEndianAt(x.v + Span(w), w, i);
      TwosComplement(x.v, w, i);
    } else {
      LittleEndianAt(x.v, w, i);
    }
  }

  /** Division rounded down. */
  function Floor(v: int, d: nat): int
    requires d > 0
  {
    v / d
  }

  lemma {:induction false} SpanSplit(w: nat, i: nat)
    requires i < w
    ensures Span(w) == Span(i) * (256 * Span(w - i - 1))
    decreases i
  {
    if i > 0 {
      SpanSplit(w - 1, i - 1);
    }
  }

  lemma Shifted(d: nat, q: int, r: int, n: int)
    ensures d * q + r + d * n == d * (q + n) + r
  {
  }

  lemma {:induction false} TwosComplement(v: int, w: nat, i: nat)
    requires v < 0 <= v + Span(w) && i < w
    ensures (v + Span(w)) / Span(i) % 256 == Floor(v, Span(i)) % 256
  {
    var d, m := Span(i), Span(w - i - 1);
    SpanSplit(w, i);
    var q, r := v / d, v % d;
    assert v == d * q + r;
    Shifted(d, q, r, 256 * m);
    DivModUniqueInt(q + 256 * m, r, d);
    ModShift(q, m);
  }

  lemma DivModUniqueInt(q: int, r: nat, d: nat)
    requires r < d
    ensures (d * q + r) / d == q
  {
    var n := d * q + r;
    var e := n / d;
    assert n == d * e + n % d;
    if e > q {
      MulMonotone(q + 1, e, d);
      assert false;
    } else if e < q {
      MulMonotone(e + 1, q, d);
      assert false;
    }
  }

  lemma MulMonotone(a: int, b: int, d: nat)
    requires a <= b
    ensures d * a <= d * b
  {
  }

  lemma ModShift(q: int, m: nat)
    ensures (q + 256 * m) % 256 == q % 256
  {
  }

  /** The kinds are the C++ types: their ranges. */
  lemma KindRanges(v: int)
    ensures InRange(U8, v) <==> 0 <= v < 256
    ensures InRange(I8, v) <==> -128 <= v < 128
    ensures InRange(Char8, v) <==> -128 <= v < 128
    ensures InRange(I16, v) <==> -0x8000 <= v < 0x8000
    ensures InRange(U16, v) <==> 0 <= v < 0x1_0000
    ensures InRange(U32, v) <==> 0 <= v < 0x1_0000_0000
    ensures InRange(I32, v) <==> -0x8000_0000 <= v < 0x8000_0000
    ensures InRange(Long32, v) <==> -0x8000_0000 <= v < 0x8000_0000
    ensures InRange(Float32, v) <==> 0 <= v < 0x1_0000_0000
    ensures InRange(I64, v) <==> -0x8000_0000_0000_0000 <= v < 0x8000_0000_0000_0000
    ensures InRange(Double64, v) <==> 0 <= v < 0x1_0000_0000_0000_0000
  {
    Spans();
  }

  lemma Spans()
    ensures Span(1) == 0x100 && Span(2) == 0x1_0000 && Span(4) == 0x1_0000_0000
    ensures Span(8) == 0x1_0000_0000_0000_0000
  {
    assert Span(3) == 0x100_0000;
    assert Span(5) == 0x100_0000_0000;
    assert Span(6) == 0x1_0000_0000_0000;
    assert Span(7) == 0x100_0000_0000_0000;
  }

  lemma DecodeEncode(x: TypedValue)
    ensures Decode(x.kind, Encode(x)) == x.v
  {
    LittleEndianRoundTrip(if x.v < 0 then x.v + Span(Width(x.kind)) else x.v, Width(x.kind));
  }

  // ----- Streams of values -----

  function EncodeAll(xs: seq<TypedValue>): seq<Byte>
    decreases |xs|
  {
    if xs == [] then [] else Encode(xs[0]) + EncodeAll(xs[1..])
  }

  function TotalWidth(xs: seq<TypedValue>): nat
    decreases |xs|
  {
    if xs == [] then 0 else Width(xs[0].kind) + TotalWidth(xs[1..])
  }

  /** One `>>`: the value if enough bytes are there, and the bytes left. */
  function Take(k: Kind, bytes: seq<Byte>): (Option<int>, seq<Byte>) {
    if |bytes| >= Width(k) then (Some(Decode(k, bytes[..Width(k)])), bytes[Width(k)..]) else (None, bytes)
  }

  lemma {:induction false} DecodeOnto(k: Kind, bytes: seq<Byte>)
    requires |bytes| == Width(k)
    ensures InRange(k, Decode(k, bytes)) && Encode(Value(k, Decode(k, bytes))) == bytes
  {
    LittleEndianOnto(bytes);
  }

  /** One `>>`: it fails if and only if too few bytes are there, and then leaves them; otherwise the
      bytes were the encoding of its value, followed by what is left. */
  lemma TakeExactly(k: Kind, bytes: seq<Byte>)
    ensures var (v, rest) := Take(k, bytes);
      if |bytes| < Width(k) then v == None && rest == bytes
      else v.Some? && InRange(k, v.value) && bytes == Encode(Value(k, v.value)) + rest
  {
    if |bytes| >= Width(k) {
      DecodeOnto(k, bytes[..Width(k)]);
      assert bytes == bytes[..Width(k)] + bytes[Width(k)..];
    }
  }

  function TakeAll(ks: seq<Kind>, bytes: seq<Byte>): (seq<Option<int>>, seq<Byte>)
    decreases |ks|
  {
    if ks == [] then ([], bytes)
    else
      var (v, rest) := Take(ks[0], bytes);
      var (vs, rest') := TakeAll(ks[1..], rest);
      ([v] + vs, rest')
  }

  function Kinds(xs: seq<TypedValue>): seq<Kind> {
    seq(|xs|, i requires 0 <= i < |xs| => xs[i].kind)
  }

  function Payloads(xs: seq<TypedValue>): seq<Option<int>> {
    seq(|xs|, i requires 0 <= i < |xs| => Some(xs[i].v))
  }

  /** Reading back the kinds that were written returns the values, in order, and leaves what
      follows untouched. */
  lemma {:induction false} StreamRoundTrip(xs: seq<TypedValue>, rest: seq<Byte>)
    ensures TakeAll(Kinds(xs), EncodeAll(xs) + rest) == (Payloads(xs), rest)
    decreases |xs|
  {
    if xs == [] {
      assert EncodeAll(xs) + rest == rest;
      assert Kinds(xs) == [] && Payloads(xs) == [];
    } else {
      StreamRoundTrip(xs[1..], rest);
      TakeFirst(xs[0], EncodeAll(xs[1..]) + rest);
      TakeAllCons(xs[0].kind, Kinds(xs[1..]), Encode(xs[0]) + (EncodeAll(xs[1..]) + rest),
                  Some(xs[0].v), EncodeAll(xs[1..]) + rest, Payloads(xs[1..]), rest);
      KindsCons(xs);
      EncodeAllCons(xs, rest);
    }
  }

  lemma EncodeAllCons(xs: seq<TypedValue>, rest: seq<Byte>)
    requires xs != []
    ensures EncodeAll(xs) + rest == Encode(xs[0]) + (EncodeAll(xs[1..]) + rest)
  {
  }

  lemma KindsCons(xs: seq<TypedValue>)
    requires xs != []
    ensures Kinds(xs) == [xs[0].kind] + Kinds(xs[1..])
    ensures Payloads(xs) == [Some(xs[0].v)] + Payloads(xs[1..])
  {
  }

  lemma TakeAllCons(k: Kind, ks: seq<Kind>, bytes: seq<Byte>, v: Option<int>, mid: seq<Byte>, vs: seq<Option<int>>,
                    rest: seq<Byte>)
    requires Take(k, bytes) == (v, mid) && TakeAll(ks, mid) == (vs, rest)
    ensures TakeAll([k] + ks, bytes) == ([v] + vs, rest)
  {
    assert ([k] + ks)[1..] == ks;
  }

  lemma {:induction false} EncodedLength(xs: seq<TypedValue>)
    ensures |EncodeAll(xs)| == TotalWidth(xs)
    decreases |xs|
  {
    if xs != [] {
      EncodedLength(xs[1..]);
    }
  }

  lemma TakeFirst(x: TypedValue, rest: seq<Byte>)
    ensures Take(x.kind, Encode(x) + rest) == (Some(x.v), rest)
  {
    var bytes := Encode(x) + rest;
    assert bytes[..Width(x.kind)] == Encode(x) && bytes[Width(x.kind)..] == rest;
    DecodeEncode(x);
  }

  /** Two value lists of the same kinds with the same bytes are the same list. */
  lemma SameBytesSameValues(xs: seq<TypedValue>, ys: seq<TypedValue>)
    requires Kinds(xs) == Kinds(ys) && EncodeAll(xs) == EncodeAll(ys)
    ensures xs == ys
  {
    StreamRoundTrip(xs, []);
    StreamRoundTrip(ys, []);
    assert Payloads(xs) == Payloads(ys);
    assert |xs| == |Kinds(xs)| == |ys|;
    forall i | 0 <= i < |xs| ensures xs[i] == ys[i] {
      assert Kinds(xs)[i] == Kinds(ys)[i] && Payloads(xs)[i] == Payloads(ys)[i];
    }
  }

  lemma Concatenation(a: seq<Byte>, b: seq<Byte>, c: seq<Byte>)
    ensures a + (b + c) == (a + b) + c
  {
  }

  lemma {:induction false} EncodeAllSnoc(xs: seq<TypedValue>, x: TypedValue)
    ensures EncodeAll(xs + [x]) == EncodeAll(xs) + Encode(x)
    decreases |xs|
  {
    if xs == [] {
      assert [x][1..] == [];
    } else {
      EncodeAllSnoc(xs[1..], x);
      assert (xs + [x])[1..] == xs[1..] + [x];
      Concatenation(Encode(xs[0]), EncodeAll(xs[1..]), Encode(x));
    }
  }

  // ----- The guard of operator<< -----

  const HEADER: nat := 5

  /** operator<< compares the width with BufferSize - DataSize. */
  predicate PutGuard(bufferSize: int, dataSize: int, width: int) {
    bufferSize - dataSize >= width
  }

  datatype Action = Store(x: TypedValue) | Fetch(k: Kind)

  datatype Cursors = Cursors(read: nat, write: nat)

  /** What one `<<` or `>>` does to the cursors. */
  function Move(bufferSize: nat, c: Cursors, a: Action): Cursors {
    match a
    case Store(x) =>
      if PutGuard(bufferSize, c.write - c.read, Width(x.kind)) then c.(write := c.write + Width(x.kind)) else c
    case Fetch(k) =>
      if c.write - c.read >= Width(k) then c.(read := c.read + Width(k)) else c
  }

  /** The cursors after Clear and the given operations, if no write leaves the buffer. */
  function Play(bufferSize: nat, actions: seq<Action>): Cursors
    decreases |actions|
  {
    if actions == [] then Cursors(HEADER, HEADER)
    else
      var n := |actions| - 1;
      Move(bufferSize, Play(bufferSize, actions[..n]), actions[n])
  }

  /** Every write that the guard lets pass ends inside the buffer. */
  predicate StaysInside(bufferSize: nat, actions: seq<Action>) {
    forall n :: 0 <= n <= |actions| ==> Play(bufferSize, actions[..n]).write <= bufferSize
  }

  function StoredWidths(actions: seq<Action>): nat
    decreases |actions|
  {
    if actions == [] then 0
    else
      var n := |actions| - 1;
      StoredWidths(actions[..n]) + if actions[n].Store? then Width(actions[n].x.kind) else 0
  }

  lemma {:induction false} PlayFacts(bufferSize: nat, actions: seq<Action>)
    ensures var c := Play(bufferSize, actions);
      HEADER <= c.read <= c.write <= HEADER + StoredWidths(actions)
    decreases |actions|
  {
    if actions != [] {
      PlayFacts(bufferSize, actions[..|actions| - 1]);
    }
  }

  lemma {:induction false} PlayGrows(bufferSize: nat, actions: seq<Action>, n: nat)
    requires n <= |actions|
    ensures Play(bufferSize, actions[..n]).write <= Play(bufferSize, actions).write
    decreases |actions|
  {
    if n == |actions| {
      assert actions[..n] == actions;
    } else {
      var init := actions[..|actions| - 1];
      PlayGrows(bufferSize, init, n);
      assert init[..n] == actions[..n];
    }
  }

  /** Whether a sequence of operations stays inside can be read off where it ends. */
  lemma StaysInsideAtEnd(bufferSize: nat, actions: seq<Action>)
    ensures StaysInside(bufferSize, actions) <==> Play(bufferSize, actions).write <= bufferSize
  {
    assert actions[..|actions|] == actions;
    forall n | 0 <= n <= |actions|
      ensures Play(bufferSize, actions[..n]).write <= Play(bufferSize, actions).write
    {
      PlayGrows(bufferSize, actions, n);
    }
  }

  /** As long as the widths written since Clear total at most BufferSize - 5, every write is
      accepted and stays inside, whatever is read in between. */
  lemma {:induction false} WidthsFit(bufferSize: nat, actions: seq<Action>)
    requires HEADER + StoredWidths(actions) <= bufferSize
    ensures Play(bufferSize, actions).write == HEADER + StoredWidths(actions)
    ensures StaysInside(bufferSize, actions)
    decreases |actions|
  {
    if actions != [] {
      var n := |actions| - 1;
      WidthsFit(bufferSize, actions[..n]);
      PlayFacts(bufferSize, actions[..n]);
    }
    StaysInsideAtEnd(bufferSize, actions);
  }

  /** Every write is accepted and stays inside if and only if the widths written since Clear total
      at most BufferSize - 5. */
  lemma WidthsFitExactly(bufferSize: nat, actions: seq<Action>)
    ensures StaysInside(bufferSize, actions) && Play(bufferSize, actions).write == HEADER + StoredWidths(actions)
       <==> HEADER + StoredWidths(actions) <= bufferSize
  {
    StaysInsideAtEnd(bufferSize, actions);
    if HEADER + StoredWidths(actions) <= bufferSize {
      WidthsFit(bufferSize, actions);
    }
  }

  lemma PlaySnoc(bufferSize: nat, actions: seq<Action>, a: Action)
    ensures Play(bufferSize, actions + [a]) == Move(bufferSize, Play(bufferSize, actions), a)
    ensures StoredWidths(actions + [a]) == StoredWidths(actions) + if a.Store? then Width(a.x.kind) else 0
  {
    assert (actions + [a])[..|actions|] == actions;
  }

  lemma PlayNext(bufferSize: nat, actions: seq<Action>, n: nat)
    requires n < |actions|
    ensures Play(bufferSize, actions[..n + 1]) == Move(bufferSize, Play(bufferSize, actions[..n]), actions[n])
  {
    assert actions[..n + 1][..n] == actions[..n];
  }

  lemma Overruns(bufferSize: nat, actions: seq<Action>, n: nat)
    requires n <= |actions| && Play(bufferSize, actions[..n]).write > bufferSize
    ensures !StaysInside(bufferSize, actions)
  {
  }

  /** n bytes written, each read at once. */
  function PingPong(n: nat): seq<Action> {
    if n == 0 then [] else PingPong(n - 1) + [Store(Value(U8, 0)), Fetch(U8)]
  }

  lemma {:induction false} PingPongPlays(bufferSize: nat, n: nat)
    requires bufferSize >= 1
    ensures Play(bufferSize, PingPong(n)) == Cursors(HEADER + n, HEADER + n)
    ensures StoredWidths(PingPong(n)) == n
  {
    if n > 0 {
      PingPongPlays(bufferSize, n - 1);
      var before, put, get := PingPong(n - 1), Store(Value(U8, 0)), Fetch(U8);
      PlaySnoc(bufferSize, before, put);
      PlaySnoc(bufferSize, before + [put], get);
      assert PingPong(n) == before + [put] + [get];
    }
  }

  /** One byte more and the guard fails: it counts the bytes that are live, never more than one
      here, and not the position in the buffer. */
  lemma GuardOverruns(bufferSize: nat)
    requires bufferSize >= HEADER
    ensures StoredWidths(PingPong(bufferSize - HEADER + 1)) == bufferSize - HEADER + 1
    ensures !StaysInside(bufferSize, PingPong(bufferSize - HEADER + 1))
  {
    PingPongPlays(bufferSize, bufferSize - HEADER + 1);
    StaysInsideAtEnd(bufferSize, PingPong(bufferSize - HEADER + 1));
  }

  // ----- The buffer -----

  class SBuffer {
    var buffer: array<Byte>
    var read: int
    var write: int
    var dataSize: int

    ghost predicate Valid()
      reads this
    {
      0 <= read <= write <= buffer.Length && dataSize == write - read
    }

    /** The bytes written and not yet read. */
    ghost function Live(): seq<Byte>
      reads this, buffer
      requires Valid()
    {
      buffer[read..write]
    }

    constructor (size: nat)
      ensures Valid() && Live() == [] && fresh(buffer) && buffer.Length == size && read == 0
    {
      buffer := new Byte[size];
      read, write, dataSize := 0, 0, 0;
    }

    function GetBufferSize(): int
      reads this
    {
      buffer.Length
    }

    method Clear()
      requires buffer.Length >= HEADER
      modifies this`read, this`write, this`dataSize
      ensures Valid() && Live() == [] && write == HEADER
    {
      read, write, dataSize := HEADER, HEADER, 0;
    }

    /** The bytes that stood after the write cursor become live. */
    method MoveWritePos(size: int) returns (r: int)
      modifies this`write, this`dataSize
      ensures r == size
      ensures old(Valid()) ==> (Valid() <==> -|old(Live())| <= size <= buffer.Length - old(write))
      ensures old(Valid()) && 0 <= size <= buffer.Length - old(write) ==>
        Live() == old(Live()) + buffer[old(write)..old(write) + size]
    {
      write := write + size;
      dataSize := dataSize + size;
      r := size;
    }

    /** The oldest live bytes are dropped. */
    method MoveReadPos(size: int) returns (r: int)
      modifies this`read, this`dataSize
      ensures r == size
      ensures old(Valid()) ==> (Valid() <==> -old(read) <= size <= |old(Live())|)
      ensures old(Valid()) && 0 <= size <= |old(Live())| ==> Live() == old(Live())[size..]
    {
      read := read + size;
      dataSize := dataSize - size;
      r := size;
    }
  }

  lemma SliceSplits(bytes: seq<Byte>, i: nat, j: nat, k: nat)
    requires i <= j <= k <= |bytes|
    ensures bytes[i..k][..j - i] == bytes[i..j] && bytes[i..k][j - i..] == bytes[j..k]
  {
  }

  class CPacket {
    const sbuf: SBuffer

    constructor (buf: SBuffer)
      ensures sbuf == buf
    {
      sbuf := buf;
    }

    method Clear()
      requires sbuf.buffer.Length >= HEADER
      modifies sbuf`read, sbuf`write, sbuf`dataSize
      ensures sbuf.Valid() && sbuf.Live() == [] && sbuf.write == HEADER
    {
      sbuf.Clear();
    }

    /** operator<<. A write the guard refuses leaves everything as it was. False: the guard lets
        the write pass although it ends beyond the buffer; what the program then does is
        undefined, and the model stops before the write. */
    method Put(x: TypedValue) returns (inside: bool)
      requires sbuf.Valid()
      modifies sbuf`write, sbuf`dataSize, sbuf.buffer
      ensures inside <==> PutGuard(sbuf.GetBufferSize(), old(sbuf.dataSize), Width(x.kind)) ==>
        old(sbuf.write) + Width(x.kind) <= sbuf.GetBufferSize()
      ensures sbuf.Valid() && sbuf.read == old(sbuf.read)
      ensures if inside && PutGuard(sbuf.GetBufferSize(), old(sbuf.dataSize), Width(x.kind))
              then sbuf.Live() == old(sbuf.Live()) + Encode(x) && sbuf.write == old(sbuf.write) + Width(x.kind)
              else sbuf.buffer[..] == old(sbuf.buffer[..]) && sbuf.write == old(sbuf.write)
    {
      var room := sbuf.GetBufferSize() - sbuf.dataSize >= Width(x.kind);
      inside := !room || sbuf.write + Width(x.kind) <= sbuf.GetBufferSize();
      if room && inside {
        Append(Encode(x));
      }
    }

    /** The assignment through the write pointer, then MoveWritePos. */
    method Append(bytes: seq<Byte>)
      requires sbuf.Valid() && sbuf.write + |bytes| <= sbuf.buffer.Length
      modifies sbuf`write, sbuf`dataSize, sbuf.buffer
      ensures sbuf.Valid() && sbuf.Live() == old(sbuf.Live()) + bytes && sbuf.write == old(sbuf.write) + |bytes|
    {
      var at := sbuf.write;
      for k := 0 to |bytes|
        modifies sbuf.buffer
        invariant forall i :: 0 <= i < sbuf.buffer.Length ==>
          sbuf.buffer[i] == if at <= i < at + k then bytes[i - at] else old(sbuf.buffer[i])
      {
        sbuf.buffer[at + k] := bytes[k];
      }
      assert sbuf.Live() == old(sbuf.Live());
      assert sbuf.buffer[at..at + |bytes|] == bytes;
      var _ := sbuf.MoveWritePos(|bytes|);
    }

    /** operator>>: None leaves the destination variable as it was. */
    method Get(k: Kind) returns (v: Option<int>)
      requires sbuf.Valid()
      modifies sbuf`read, sbuf`dataSize
      ensures sbuf.Valid() && (v, sbuf.Live()) == Take(k, old(sbuf.Live()))
    {
      v := None;
      if sbuf.dataSize >= Width(k) {
        v := Some(Decode(k, sbuf.buffer[sbuf.read..sbuf.read + Width(k)]));
        SliceSplits(sbuf.buffer[..], sbuf.read, sbuf.read + Width(k), sbuf.write);
        var _ := sbuf.MoveReadPos(Width(k));
      }
    }

    /** A chain of operator<< on a cleared packet: any list of values that fits behind the
        header is stored whole. */
    method PutAll(xs: seq<TypedValue>)
      requires sbuf.buffer.Length >= HEADER && TotalWidth(xs) <= sbuf.buffer.Length - HEADER
      modifies sbuf`read, sbuf`write, sbuf`dataSize, sbuf.buffer
      ensures sbuf.Valid() && sbuf.Live() == EncodeAll(xs)
    {
      Clear();
      var n := 0;
      while n < |xs|
        invariant 0 <= n <= |xs| && sbuf.Valid() && sbuf.read == HEADER
        invariant sbuf.Live() == EncodeAll(xs[..n])
        invariant sbuf.write + TotalWidth(xs[n..]) <= sbuf.buffer.Length
      {
        assert PutGuard(sbuf.GetBufferSize(), sbuf.dataSize, Width(xs[n].kind));
        var inside := Put(xs[n]);
        assert inside;
        EncodeAllSnoc(xs[..n], xs[n]);
        assert xs[..n + 1] == xs[..n] + [xs[n]];
        assert xs[n..][1..] == xs[n + 1..];
        n := n + 1;
      }
      assert xs[..n] == xs;
    }

    /** A chain of operator>>. */
    method GetAll(ks: seq<Kind>) returns (vs: seq<Option<int>>)
      requires sbuf.Valid()
      modifies sbuf`read, sbuf`dataSize
      ensures sbuf.Valid() && (vs, sbuf.Live()) == TakeAll(ks, old(sbuf.Live()))
    {
      vs := [];
      var n := 0;
      assert ks[0..] == ks;
      assert [] + TakeAll(ks, sbuf.Live()).0 == TakeAll(ks, sbuf.Live()).0;
      while n < |ks|
        invariant 0 <= n <= |ks| && sbuf.Valid()
        invariant var (tail, rest) := TakeAll(ks[n..], sbuf.Live());
          TakeAll(ks, old(sbuf.Live())) == (vs + tail, rest)
      {
        ghost var (tail, rest) := TakeAll(ks[n..], sbuf.Live());
        var v := Get(ks[n]);
        assert ks[n..][1..] == ks[n + 1..];
        ghost var (tail', rest') := TakeAll(ks[n + 1..], sbuf.Live());
        assert tail == [v] + tail' && rest == rest';
        assert vs + ([v] + tail') == (vs + [v]) + tail';
        vs := vs + [v];
        n := n + 1;
      }
      assert ks[n..] == [];
      assert vs + [] == vs;
    }
  }

  /** One `<<` or `>>`. */
  method Perform(packet: CPacket, a: Action) returns (inside: bool)
    requires packet.sbuf.Valid()
    modifies packet.sbuf`read, packet.sbuf`write, packet.sbuf`dataSize, packet.sbuf.buffer
    ensures packet.sbuf.Valid()
    ensures var c := Move(packet.sbuf.buffer.Length, old(Cursors(packet.sbuf.read, packet.sbuf.write)), a);
      if inside then Cursors(packet.sbuf.read, packet.sbuf.write) == c else c.write > packet.sbuf.buffer.Length
  {
    match a {
      case Store(x) => inside := packet.Put(x);
      case Fetch(k) =>
        var _ := packet.Get(k);
        inside := true;
        assert packet.sbuf.write - packet.sbuf.read == |packet.sbuf.Live()|;
    }
  }

  /** Any chain of `<<` and `>>` on a cleared packet runs into the end of the buffer exactly as
      the cursors say. */
  method Exchange(packet: CPacket, actions: seq<Action>) returns (inside: bool)
    requires packet.sbuf.buffer.Length >= HEADER
    modifies packet.sbuf, packet.sbuf.buffer
    ensures inside <==> StaysInside(old(packet.sbuf.buffer.Length), actions)
  {
    var sbuf := packet.sbuf;
    ghost var size := sbuf.buffer.Length;
    packet.Clear();
    var n := 0;
    while n < |actions|
      invariant 0 <= n <= |actions| && sbuf.Valid() && sbuf.buffer == old(sbuf.buffer)
      invariant Cursors(sbuf.read, sbuf.write) == Play(size, actions[..n])
    {
      PlayNext(size, actions, n);
      inside := Perform(packet, actions[n]);
      if !inside {
        Overruns(size, actions, n + 1);
        return;
      }
      n := n + 1;
    }
    assert actions[..n] == actions;
    StaysInsideAtEnd(size, actions);
    return true;
  }

  /** The codec as a whole: clear, write, read back. */
  method WriteThenRead(packet: CPacket, xs: seq<TypedValue>) returns (vs: seq<Option<int>>)
    requires packet.sbuf.buffer.Length >= HEADER && TotalWidth(xs) <= packet.sbuf.buffer.Length - HEADER
    modifies packet.sbuf, packet.sbuf.buffer
    ensures vs == Payloads(xs) && packet.sbuf.Valid() && packet.sbuf.Live() == []
  {
    packet.PutAll(xs);
    StreamRoundTrip(xs, []);
    assert EncodeAll(xs) + [] == EncodeAll(xs);
    vs := packet.GetAll(Kinds(xs));
  }
}
