/** The fight messages: the stub that decodes and dispatches, and the proxies that encode and
    send. */
module FighterRpc {
  import opened Bytes
  import opened PacketCodec
  import opened Wrappers

  type U8Int = x: int | 0 <= x < 0x100 witness 0
  type U16Int = x: int | 0 <= x < 0x1_0000 witness 0
  type U32Int = x: int | 0 <= x < 0x1_0000_0000 witness 0

  const SCCREATEME: U8Int := 0
  const SCCREATEOTHER: U8Int := 1
  const SCDELETE: U8Int := 2
  const CSMOVESTART: U8Int := 10
  const SCMOVESTART: U8Int := 11
  const CSMOVESTOP: U8Int := 12
  const SCMOVESTOP: U8Int := 13
  const CSATTACK1: U8Int := 20
  const SCATTACK1: U8Int := 21
  const CSATTACK2: U8Int := 22
  const SCATTACK2: U8Int := 23
  const CSATTACK3: U8Int := 24
  const SCATTACK3: U8Int := 25
  const SCDAMAGE: U8Int := 30

  function Byte1(x: U8Int): TypedValue {
    assert Span(1) == 0x100;
    Value(U8, x)
  }

  function Byte2(x: U16Int): TypedValue {
    assert Span(2) == 0x1_0000;
    Value(U16, x)
  }

  function Byte4(x: U32Int): TypedValue {
    assert Span(4) == 0x1_0000_0000;
    Value(U32, x)
  }

  // ----- The stub -----

  /** What ProcMessage hands on: one of its five handlers with its arguments, or the default
      handler. */
  datatype Dispatch =
    | MoveStart(dir: U8Int, x: U16Int, y: U16Int)
    | MoveStop(dir: U8Int, x: U16Int, y: U16Int)
    | Attack1(dir: U8Int, x: U16Int, y: U16Int)
    | Attack2(dir: U8Int, x: U16Int, y: U16Int)
    | Attack3(dir: U8Int, x: U16Int, y: U16Int)
    | Default

  predicate IsClientType(t: U8Int) {
    t == CSMOVESTART || t == CSMOVESTOP || t == CSATTACK1 || t == CSATTACK2 || t == CSATTACK3
  }

  function Handler(t: U8Int, dir: U8Int, x: U16Int, y: U16Int): Dispatch {
    if t == CSMOVESTART then MoveStart(dir, x, y)
    else if t == CSMOVESTOP then MoveStop(dir, x, y)
    else if t == CSATTACK1 then Attack1(dir, x, y)
    else if t == CSATTACK2 then Attack2(dir, x, y)
    else if t == CSATTACK3 then Attack3(dir, x, y)
    else Default
  }

  function TypeOf(m: Dispatch): U8Int
    requires !m.Default?
  {
    match m
    case MoveStart(_, _, _) => CSMOVESTART
    case MoveStop(_, _, _) => CSMOVESTOP
    case Attack1(_, _, _) => CSATTACK1
    case Attack2(_, _, _) => CSATTACK2
    case Attack3(_, _, _) => CSATTACK3
  }

  /** The bytes a client sends for a message. */
  function ClientFields(m: Dispatch): seq<TypedValue>
    requires !m.Default?
  {
    [Byte1(TypeOf(m)), Byte1(m.dir), Byte2(m.x), Byte2(m.y)]
  }

  /** An extracted unsigned value, or the variable's earlier content. */
  function Or8(v: Option<int>, before: U8Int): U8Int {
    if v.Some? && 0 <= v.value < 0x100 then v.value else before
  }

  function Or16(v: Option<int>, before: U16Int): U16Int {
    if v.Some? && 0 <= v.value < 0x1_0000 then v.value else before
  }

  lemma TakeIsUnsigned(bytes: seq<Byte>)
    ensures var v := Take(U8, bytes).0; v.Some? ==> 0 <= v.value < 0x100
    ensures var v := Take(U16, bytes).0; v.Some? ==> 0 <= v.value < 0x1_0000
  {
    assert Span(1) == 0x100 && Span(2) == 0x1_0000;
    if |bytes| >= 1 {
      LittleEndianOnto(bytes[..1]);
    }
    if |bytes| >= 2 {
      LittleEndianOnto(bytes[..2]);
    }
  }

  /** ProcMessage as a function of the packet's bytes; uninit is the indeterminate initial
      content of its variable type, which an empty packet leaves in place. */
  function Decoded(bytes: seq<Byte>, uninit: U8Int): (Dispatch, seq<Byte>) {
    var (t, r0) := Take(U8, bytes);
    var type_ := Or8(t, uninit);
    if IsClientType(type_) then
      var (dir, r1) := Take(U8, r0);
      var (x, r2) := Take(U16, r1);
      var (y, r3) := Take(U16, r2);
      (Handler(type_, Or8(dir, 0), Or16(x, 0), Or16(y, 0)), r3)
    else
      (Default, r0)
  }

  class FightStub {
    /** The three extractions every case makes. */
    method Arguments(packet: CPacket) returns (dir: U8Int, x: U16Int, y: U16Int)
      requires packet.sbuf.Valid()
      modifies packet.sbuf`read, packet.sbuf`dataSize
      ensures packet.sbuf.Valid()
      ensures var (d, r1) := Take(U8, old(packet.sbuf.Live()));
              var (a, r2) := Take(U16, r1);
              var (b, r3) := Take(U16, r2);
              dir == Or8(d, 0) && x == Or16(a, 0) && y == Or16(b, 0) && packet.sbuf.Live() == r3
    {
      dir, x, y := 0, 0, 0;
      var v := packet.Get(U8);
      dir := Or8(v, dir);
      v := packet.Get(U16);
      x := Or16(v, x);
      v := packet.Get(U16);
      y := Or16(v, y);
    }

    method ProcMessage(packet: CPacket, uninit: U8Int) returns (d: Dispatch)
      requires packet.sbuf.Valid()
      modifies packet.sbuf`read, packet.sbuf`dataSize
      ensures packet.sbuf.Valid() && (d, packet.sbuf.Live()) == Decoded(old(packet.sbuf.Live()), uninit)
    {
      var type_ := uninit;
      var v := packet.Get(U8);
      type_ := Or8(v, type_);
      if type_ == CSMOVESTART {
        var dir, x, y := Arguments(packet);
        d := MoveStart(dir, x, y);
      } else if type_ == CSMOVESTOP {
        var dir, x, y := Arguments(packet);
        d := MoveStop(dir, x, y);
      } else if type_ == CSATTACK1 {
        var dir, x, y := Arguments(packet);
        d := Attack1(dir, x, y);
      } else if type_ == CSATTACK2 {
        var dir, x, y := Arguments(packet);
        d := Attack2(dir, x, y);
      } else if type_ == CSATTACK3 {
        var dir, x, y := Arguments(packet);
        d := Attack3(dir, x, y);
      } else {
        d := Default;
      }
    }
  }

  lemma Joined(a: seq<Byte>, b: seq<Byte>, c: seq<Byte>, d: seq<Byte>, rest: seq<Byte>)
    ensures a + b + c + d + rest == a + (b + (c + (d + rest)))
  {
  }

  lemma DecodeFour(m: Dispatch, bytes: seq<Byte>, r0: seq<Byte>, r1: seq<Byte>, r2: seq<Byte>, rest: seq<Byte>,
                   uninit: U8Int)
    requires !m.Default? && Take(U8, bytes) == (Some(TypeOf(m)), r0) && Take(U8, r0) == (Some(m.dir), r1)
    requires Take(U16, r1) == (Some(m.x), r2) && Take(U16, r2) == (Some(m.y), rest)
    ensures Decoded(bytes, uninit) == (m, rest)
  {
  }

  /** The stub inverts the client's encoding of each of its five messages. */
  lemma StubInverts(m: Dispatch, rest: seq<Byte>, uninit: U8Int)
    requires !m.Default?
    ensures Decoded(EncodeAll(ClientFields(m)) + rest, uninit) == (m, rest)
  {
    var t, d, x, y := Byte1(TypeOf(m)), Byte1(m.dir), Byte2(m.x), Byte2(m.y);
    var r2 := Encode(y) + rest;
    var r1 := Encode(x) + r2;
    var r0 := Encode(d) + r1;
    FourBytesStrings(t, d, x, y);
    Joined(Encode(t), Encode(d), Encode(x), Encode(y), rest);
    TakeFirst(t, r0);
    TakeFirst(d, r1);
    TakeFirst(x, r2);
    TakeFirst(y, rest);
    DecodeFour(m, Encode(t) + r0, r0, r1, r2, rest, uninit);
  }

  // ----- The bytes on the wire -----

  /** Two and four bytes, the least significant first. */
  function Word2(x: U16Int): seq<Byte> {
    [x % 256, x / 256]
  }

  function Word4(x: U32Int): seq<Byte> {
    [x % 256, x / 256 % 256, x / 0x1_0000 % 256, x / 0x100_0000]
  }

  lemma BytesOf1(x: U8Int)
    ensures Encode(Byte1(x)) == [x]
  {
    EncodeAt(Byte1(x), 0);
  }

  lemma BytesOf2(x: U16Int)
    ensures Encode(Byte2(x)) == Word2(x)
  {
    EncodeAt(Byte2(x), 0);
    EncodeAt(Byte2(x), 1);
  }

  lemma BytesOf4(x: U32Int)
    ensures Encode(Byte4(x)) == Word4(x)
  {
    Spans();
    assert Span(3) == 0x100_0000;
    EncodeAt(Byte4(x), 0);
    EncodeAt(Byte4(x), 1);
    EncodeAt(Byte4(x), 2);
    EncodeAt(Byte4(x), 3);
  }

  /** The type numbers of the client messages, and their six bytes: type, direction, x, y. */
  lemma ClientBytes(dir: U8Int, x: U16Int, y: U16Int)
    ensures EncodeAll(ClientFields(MoveStart(dir, x, y))) == [10, dir] + Word2(x) + Word2(y)
    ensures EncodeAll(ClientFields(MoveStop(dir, x, y))) == [12, dir] + Word2(x) + Word2(y)
    ensures EncodeAll(ClientFields(Attack1(dir, x, y))) == [20, dir] + Word2(x) + Word2(y)
    ensures EncodeAll(ClientFields(Attack2(dir, x, y))) == [22, dir] + Word2(x) + Word2(y)
    ensures EncodeAll(ClientFields(Attack3(dir, x, y))) == [24, dir] + Word2(x) + Word2(y)
  {
    BytesOfClient(MoveStart(dir, x, y));
    BytesOfClient(MoveStop(dir, x, y));
    BytesOfClient(Attack1(dir, x, y));
    BytesOfClient(Attack2(dir, x, y));
    BytesOfClient(Attack3(dir, x, y));
  }

  lemma BytesOfClient(m: Dispatch)
    requires !m.Default?
    ensures EncodeAll(ClientFields(m)) == [TypeOf(m), m.dir] + Word2(m.x) + Word2(m.y)
  {
    FourBytesStrings(Byte1(TypeOf(m)), Byte1(m.dir), Byte2(m.x), Byte2(m.y));
    BytesOf1(TypeOf(m));
    BytesOf1(m.dir);
    BytesOf2(m.x);
    BytesOf2(m.y);
  }

  lemma FourBytesStrings(a: TypedValue, b: TypedValue, c: TypedValue, d: TypedValue)
    ensures EncodeAll([a, b, c, d]) == Encode(a) + Encode(b) + Encode(c) + Encode(d)
  {
    assert [a, b, c, d][1..] == [b, c, d] && [b, c, d][1..] == [c, d] && [c, d][1..] == [d] && [d][1..] == [];
    assert EncodeAll([d]) == Encode(d);
    assert EncodeAll([c, d]) == Encode(c) + EncodeAll([d]);
    assert EncodeAll([b, c, d]) == Encode(b) + EncodeAll([c, d]);
    assert EncodeAll([a, b, c, d]) == Encode(a) + EncodeAll([b, c, d]);
  }

  /** Conversely, whatever reaches a handler from a packet of full length was the encoding of
      exactly that message. */
  lemma StubAcceptsOnlyEncodings(bytes: seq<Byte>, uninit: U8Int)
    requires |bytes| >= 6 && !Decoded(bytes, uninit).0.Default?
    ensures bytes == EncodeAll(ClientFields(Decoded(bytes, uninit).0)) + Decoded(bytes, uninit).1
  {
    var (m, rest) := Decoded(bytes, uninit);
    TakeOnto(bytes);
    var r0 := bytes[1..];
    TakeOnto(r0);
    TakeOnto(r0[1..]);
    TakeOnto(r0[1..][2..]);
    var t, d, x, y := Byte1(TypeOf(m)), Byte1(m.dir), Byte2(m.x), Byte2(m.y);
    FourBytesStrings(t, d, x, y);
    assert bytes == bytes[..1] + r0[..1] + r0[1..][..2] + r0[1..][2..][..2] + rest;
  }

  lemma TakeOnto(bytes: seq<Byte>)
    ensures |bytes| >= 1 ==> var v := Take(U8, bytes).0.value; 0 <= v < 0x100 && Encode(Byte1(v)) == bytes[..1]
    ensures |bytes| >= 2 ==> var v := Take(U16, bytes).0.value; 0 <= v < 0x1_0000 && Encode(Byte2(v)) == bytes[..2]
  {
    TakeIsUnsigned(bytes);
    if |bytes| >= 1 {
      LittleEndianOnto(bytes[..1]);
    }
    if |bytes| >= 2 {
      LittleEndianOnto(bytes[..2]);
    }
  }

  lemma TakeByte(bytes: seq<Byte>)
    requires |bytes| >= 1
    ensures Take(U8, bytes) == (Some(bytes[0]), bytes[1..])
  {
    assert FromLittleEndian(bytes[..1][1..]) == 0;
  }

  lemma TakeWord(bytes: seq<Byte>)
    requires |bytes| >= 2
    ensures Take(U16, bytes) == (Some(bytes[0] as int + 256 * (bytes[1] as int)), bytes[2..])
  {
    var two := bytes[..2];
    assert two[1..] == [bytes[1]] && [bytes[1]][1..] == [];
    assert FromLittleEndian([bytes[1]]) == bytes[1];
  }

  /** A packet cut short still reaches its handler: every argument that does not fit is zero,
      and an unreadable x leaves its byte for y to fail on as well. */
  lemma ShortPacket(bytes: seq<Byte>, uninit: U8Int)
    requires 1 <= |bytes| < 6 && IsClientType(bytes[0])
    ensures var (m, rest) := Decoded(bytes, uninit);
      && !m.Default? && TypeOf(m) == bytes[0] && m.y == 0
      && m.dir == (if |bytes| >= 2 then bytes[1] else 0)
      && m.x == (if |bytes| >= 4 then bytes[2] as int + 256 * (bytes[3] as int) else 0)
      && rest == (if |bytes| == 3 || |bytes| == 5 then [bytes[|bytes| - 1]] else [])
  {
    TakeByte(bytes);
    var r0 := bytes[1..];
    if |bytes| >= 2 {
      TakeByte(r0);
      var r1 := r0[1..];
      if |bytes| >= 4 {
        TakeWord(r1);
        assert |Take(U16, r1).1| < 2;
      }
    }
  }

  /** Every other type goes to the default handler with the rest of the packet, and an empty packet is
      dispatched by what the uninitialised type variable holds, with zeros. */
  lemma OtherPackets(bytes: seq<Byte>, uninit: U8Int)
    ensures bytes != [] && bytes[0] !in {10, 12, 20, 22, 24} ==> Decoded(bytes, uninit) == (Default, bytes[1..])
    ensures bytes == [] && uninit !in {10, 12, 20, 22, 24} ==> Decoded(bytes, uninit) == (Default, [])
    ensures bytes == [] && uninit == 10 ==> Decoded(bytes, uninit) == (MoveStart(0, 0, 0), [])
  {
    if bytes != [] {
      TakeByte(bytes);
    }
  }

  // ----- The proxies -----

  datatype ServerMsg =
    | SCCreateMe(id: U32Int, dir: U8Int, x: U16Int, y: U16Int, hp: U8Int)
    | SCCreateOther(id: U32Int, dir: U8Int, x: U16Int, y: U16Int, hp: U8Int)
    | SCDelete(id: U32Int)
    | SCMoveStart(id: U32Int, dir: U8Int, x: U16Int, y: U16Int)
    | SCMoveStop(id: U32Int, dir: U8Int, x: U16Int, y: U16Int)
    | SCAttack1(id: U32Int, dir: U8Int, x: U16Int, y: U16Int)
    | SCAttack2(id: U32Int, dir: U8Int, x: U16Int, y: U16Int)
    | SCAttack3(id: U32Int, dir: U8Int, x: U16Int, y: U16Int)
    | SCDamage(atk: U32Int, tgt: U32Int, hp: U8Int)

  function ServerType(m: ServerMsg): U8Int {
    match m
    case SCCreateMe(_, _, _, _, _) => SCCREATEME
    case SCCreateOther(_, _, _, _, _) => SCCREATEOTHER
    case SCDelete(_) => SCDELETE
    case SCMoveStart(_, _, _, _) => SCMOVESTART
    case SCMoveStop(_, _, _, _) => SCMOVESTOP
    case SCAttack1(_, _, _, _) => SCATTACK1
    case SCAttack2(_, _, _, _) => SCATTACK2
    case SCAttack3(_, _, _, _) => SCATTACK3
    case SCDamage(_, _, _) => SCDAMAGE
  }

  function ServerArgs(m: ServerMsg): seq<TypedValue> {
    match m
    case SCDelete(id) => [Byte4(id)]
    case SCDamage(atk, tgt, hp) => [Byte4(atk), Byte4(tgt), Byte1(hp)]
    case SCCreateMe(id, dir, x, y, hp) => [Byte4(id), Byte1(dir), Byte2(x), Byte2(y), Byte1(hp)]
    case SCCreateOther(id, dir, x, y, hp) => [Byte4(id), Byte1(dir), Byte2(x), Byte2(y), Byte1(hp)]
    case _ => [Byte4(m.id), Byte1(m.dir), Byte2(m.x), Byte2(m.y)]
  }

  function ServerFields(m: ServerMsg): seq<TypedValue> {
    [Byte1(ServerType(m))] + ServerArgs(m)
  }

  /** The wire form of a server message. */
  function Wire(m: ServerMsg): seq<Byte> {
    EncodeAll(ServerFields(m))
  }

  /** The nine encodings are injective across kinds and arguments: a receiver can tell every
      message from its bytes. */
  lemma WireInjective(m1: ServerMsg, m2: ServerMsg)
    requires Wire(m1) == Wire(m2)
    ensures m1 == m2
  {
    var f1, f2 := ServerFields(m1), ServerFields(m2);
    FirstByte(m1);
    FirstByte(m2);
    assert ServerType(m1) == ServerType(m2);
    SameTypeSameKinds(m1, m2);
    SameBytesSameValues(f1, f2);
    assert f1[1..] == ServerArgs(m1) && f2[1..] == ServerArgs(m2);
    SameArgs(m1, m2);
  }

  lemma FirstByte(m: ServerMsg)
    ensures Wire(m) != [] && Wire(m)[0] == ServerType(m)
  {
  }

  lemma SameTypeSameKinds(m1: ServerMsg, m2: ServerMsg)
    requires ServerType(m1) == ServerType(m2)
    ensures Kinds(ServerFields(m1)) == Kinds(ServerFields(m2))
  {
  }

  lemma SameArgs(m1: ServerMsg, m2: ServerMsg)
    requires ServerType(m1) == ServerType(m2) && ServerArgs(m1) == ServerArgs(m2)
    ensures m1 == m2
  {
  }

  lemma {:induction false} EncodeAllCons(x: TypedValue, xs: seq<TypedValue>)
    ensures EncodeAll([x] + xs) == Encode(x) + EncodeAll(xs)
  {
    assert ([x] + xs)[1..] == xs;
  }

  lemma BytesOfPlace(id: U32Int, dir: U8Int, x: U16Int, y: U16Int, more: seq<TypedValue>)
    ensures EncodeAll([Byte4(id), Byte1(dir), Byte2(x), Byte2(y)] + more)
         == Word4(id) + [dir] + Word2(x) + Word2(y) + EncodeAll(more)
  {
    PlaceCons(Byte4(id), Byte1(dir), Byte2(x), Byte2(y), more);
    Joined(Encode(Byte4(id)), Encode(Byte1(dir)), Encode(Byte2(x)), Encode(Byte2(y)), EncodeAll(more));
    BytesOf4(id);
    BytesOf1(dir);
    BytesOf2(x);
    BytesOf2(y);
  }

  lemma PlaceCons(a: TypedValue, b: TypedValue, c: TypedValue, d: TypedValue, more: seq<TypedValue>)
    ensures EncodeAll([a, b, c, d] + more) == Encode(a) + (Encode(b) + (Encode(c) + (Encode(d) + EncodeAll(more))))
  {
    var ds := [d] + more;
    var cs := [c] + ds;
    var bs := [b] + cs;
    assert [a, b, c, d] + more == [a] + bs;
    EncodeAllCons(a, bs);
    EncodeAllCons(b, cs);
    EncodeAllCons(c, ds);
    EncodeAllCons(d, more);
  }

  lemma BytesOfLast(hp: U8Int)
    ensures EncodeAll([Byte1(hp)]) == [hp]
  {
    assert [Byte1(hp)] + [] == [Byte1(hp)];
    EncodeAllCons(Byte1(hp), []);
    BytesOf1(hp);
  }

  lemma WireCons(m: ServerMsg)
    ensures Wire(m) == [ServerType(m)] + EncodeAll(ServerArgs(m))
  {
    EncodeAllCons(Byte1(ServerType(m)), ServerArgs(m));
    BytesOf1(ServerType(m));
  }

  lemma BytesOfCreate(m: ServerMsg)
    requires m.SCCreateMe? || m.SCCreateOther?
    ensures Wire(m) == [ServerType(m)] + (Word4(m.id) + [m.dir] + Word2(m.x) + Word2(m.y) + [m.hp])
  {
    WireCons(m);
    BytesOfLast(m.hp);
    BytesOfPlace(m.id, m.dir, m.x, m.y, [Byte1(m.hp)]);
    assert ServerArgs(m) == [Byte4(m.id), Byte1(m.dir), Byte2(m.x), Byte2(m.y)] + [Byte1(m.hp)];
  }

  lemma BytesOfMove(m: ServerMsg)
    requires m.SCMoveStart? || m.SCMoveStop? || m.SCAttack1? || m.SCAttack2? || m.SCAttack3?
    ensures Wire(m) == [ServerType(m)] + (Word4(m.id) + [m.dir] + Word2(m.x) + Word2(m.y))
  {
    WireCons(m);
    BytesOfPlace(m.id, m.dir, m.x, m.y, []);
    assert ServerArgs(m) == [Byte4(m.id), Byte1(m.dir), Byte2(m.x), Byte2(m.y)] + [];
    assert EncodeAll([]) == [];
  }

  lemma BytesOfDamage(atk: U32Int, tgt: U32Int, hp: U8Int)
    ensures Wire(SCDamage(atk, tgt, hp)) == [30] + (Word4(atk) + Word4(tgt) + [hp])
  {
    var m := SCDamage(atk, tgt, hp);
    WireCons(m);
    assert ServerArgs(m) == [Byte4(atk)] + ([Byte4(tgt)] + [Byte1(hp)]);
    EncodeAllCons(Byte4(atk), [Byte4(tgt)] + [Byte1(hp)]);
    EncodeAllCons(Byte4(tgt), [Byte1(hp)]);
    BytesOf4(atk);
    BytesOf4(tgt);
    BytesOfLast(hp);
  }

  lemma BytesOfDelete(id: U32Int)
    ensures Wire(SCDelete(id)) == [2] + Word4(id)
  {
    WireCons(SCDelete(id));
    assert ServerArgs(SCDelete(id)) == [Byte4(id)] + [];
    EncodeAllCons(Byte4(id), []);
    BytesOf4(id);
  }

  /** The bytes of the nine server messages, with their type numbers. */
  lemma WireBytes(m: ServerMsg)
    ensures Wire(m) == match m
      case SCCreateMe(id, dir, x, y, hp) => [0] + (Word4(id) + [dir] + Word2(x) + Word2(y) + [hp])
      case SCCreateOther(id, dir, x, y, hp) => [1] + (Word4(id) + [dir] + Word2(x) + Word2(y) + [hp])
      case SCDelete(id) => [2] + Word4(id)
      case SCMoveStart(id, dir, x, y) => [11] + (Word4(id) + [dir] + Word2(x) + Word2(y))
      case SCMoveStop(id, dir, x, y) => [13] + (Word4(id) + [dir] + Word2(x) + Word2(y))
      case SCAttack1(id, dir, x, y) => [21] + (Word4(id) + [dir] + Word2(x) + Word2(y))
      case SCAttack2(id, dir, x, y) => [23] + (Word4(id) + [dir] + Word2(x) + Word2(y))
      case SCAttack3(id, dir, x, y) => [25] + (Word4(id) + [dir] + Word2(x) + Word2(y))
      case SCDamage(atk, tgt, hp) => [30] + (Word4(atk) + Word4(tgt) + [hp])
  {
    match m {
      case SCCreateMe(_, _, _, _, _) => BytesOfCreate(m);
      case SCCreateOther(_, _, _, _, _) => BytesOfCreate(m);
      case SCDelete(id) => BytesOfDelete(id);
      case SCDamage(atk, tgt, hp) => BytesOfDamage(atk, tgt, hp);
      case _ => BytesOfMove(m);
    }
  }

  /** What a receiver that extracts the right kinds reads from a message, and leaves. */
  lemma WireReads(m: ServerMsg, rest: seq<Byte>)
    ensures TakeAll(Kinds(ServerFields(m)), Wire(m) + rest) == (Payloads(ServerFields(m)), rest)
    ensures m.SCDamage? ==>
      TakeAll([U8, U32, U32, U8], Wire(m) + rest) == ([Some(30), Some(m.atk), Some(m.tgt), Some(m.hp)], rest)
  {
    StreamRoundTrip(ServerFields(m), rest);
    if m.SCDamage? {
      assert Kinds(ServerFields(m)) == [U8, U32, U32, U8];
      assert Payloads(ServerFields(m)) == [Some(30), Some(m.atk), Some(m.tgt), Some(m.hp)];
    }
  }

  /** One SendPacket call: the session and the packet's live bytes. */
  datatype Sent = Sent(session: int, bytes: seq<Byte>)

  function ToEach(sessions: seq<int>, bytes: seq<Byte>): seq<Sent> {
    seq(|sessions|, i requires 0 <= i < |sessions| => Sent(sessions[i], bytes))
  }

  const BUFFER_DEFAULT: nat := 300

  class FightProxy {
    /** What was handed to _server->SendPacket, in order. */
    var sent: seq<Sent>

    /** `CPacket packet; packet.Clear(); packet << ...;` with the values of one chain. */
    method Pack(values: seq<TypedValue>) returns (packet: CPacket)
      requires TotalWidth(values) <= BUFFER_DEFAULT - HEADER
      ensures fresh(packet) && packet.sbuf.Valid() && packet.sbuf.Live() == EncodeAll(values)
    {
      var buf := new SBuffer(BUFFER_DEFAULT);
      packet := new CPacket(buf);
      packet.PutAll(values);
    }

    /** The sending loop of every proxy. */
    method SendToAll(sessionA: seq<int>, count: nat, packet: CPacket)
      requires count <= |sessionA| && packet.sbuf.Valid()
      modifies this`sent
      ensures sent == old(sent) + ToEach(sessionA[..count], packet.sbuf.Live())
    {
      for i := 0 to count
        invariant sent == old(sent) + ToEach(sessionA[..i], packet.sbuf.Live())
      {
        sent := sent + [Sent(sessionA[i], packet.sbuf.buffer[packet.sbuf.read..packet.sbuf.write])];
        assert ToEach(sessionA[..i + 1], packet.sbuf.Live())
            == ToEach(sessionA[..i], packet.sbuf.Live()) + [Sent(sessionA[i], packet.sbuf.Live())];
      }
    }

    method ProxySCCreateMe(sessionA: seq<int>, count: nat, id: U32Int, dir: U8Int, x: U16Int, y: U16Int, hp: U8Int)
      requires count <= |sessionA|
      modifies this`sent
      ensures sent == old(sent) + ToEach(sessionA[..count], Wire(SCCreateMe(id, dir, x, y, hp)))
    {
      var values := [Byte1(SCCREATEME), Byte4(id), Byte1(dir), Byte2(x), Byte2(y), Byte1(hp)];
      assert values == ServerFields(SCCreateMe(id, dir, x, y, hp));
      FitsBuffer(values);
      var packet := Pack(values);
      SendToAll(sessionA, count, packet);
    }

    method ProxySCCreateOther(sessionA: seq<int>, count: nat, id: U32Int, dir: U8Int, x: U16Int, y: U16Int, hp: U8Int)
      requires count <= |sessionA|
      modifies this`sent
      ensures sent == old(sent) + ToEach(sessionA[..count], Wire(SCCreateOther(id, dir, x, y, hp)))
    {
      var values := [Byte1(SCCREATEOTHER), Byte4(id), Byte1(dir), Byte2(x), Byte2(y), Byte1(hp)];
      assert values == ServerFields(SCCreateOther(id, dir, x, y, hp));
      FitsBuffer(values);
      var packet := Pack(values);
      SendToAll(sessionA, count, packet);
    }

    method ProxySCDelete(sessionA: seq<int>, count: nat, id: U32Int)
      requires count <= |sessionA|
      modifies this`sent
      ensures sent == old(sent) + ToEach(sessionA[..count], Wire(SCDelete(id)))
    {
      var values := [Byte1(SCDELETE), Byte4(id)];
      assert values == ServerFields(SCDelete(id));
      FitsBuffer(values);
      var packet := Pack(values);
      SendToAll(sessionA, count, packet);
    }

    method ProxySCMoveStart(sessionA: seq<int>, count: nat, id: U32Int, dir: U8Int, x: U16Int, y: U16Int)
      requires count <= |sessionA|
      modifies this`sent
      ensures sent == old(sent) + ToEach(sessionA[..count], Wire(SCMoveStart(id, dir, x, y)))
    {
      var values := [Byte1(SCMOVESTART), Byte4(id), Byte1(dir), Byte2(x), Byte2(y)];
      assert values == ServerFields(SCMoveStart(id, dir, x, y));
      FitsBuffer(values);
      var packet := Pack(values);
      SendToAll(sessionA, count, packet);
    }

    method ProxySCMoveStop(sessionA: seq<int>, count: nat, id: U32Int, dir: U8Int, x: U16Int, y: U16Int)
      requires count <= |sessionA|
      modifies this`sent
      ensures sent == old(sent) + ToEach(sessionA[..count], Wire(SCMoveStop(id, dir, x, y)))
    {
      var values := [Byte1(SCMOVESTOP), Byte4(id), Byte1(dir), Byte2(x), Byte2(y)];
      assert values == ServerFields(SCMoveStop(id, dir, x, y));
      FitsBuffer(values);
      var packet := Pack(values);
      SendToAll(sessionA, count, packet);
    }

    method ProxySCAttack1(sessionA: seq<int>, count: nat, id: U32Int, dir: U8Int, x: U16Int, y: U16Int)
      requires count <= |sessionA|
      modifies this`sent
      ensures sent == old(sent) + ToEach(sessionA[..count], Wire(SCAttack1(id, dir, x, y)))
    {
      var values := [Byte1(SCATTACK1), Byte4(id), Byte1(dir), Byte2(x), Byte2(y)];
      assert values == ServerFields(SCAttack1(id, dir, x, y));
      FitsBuffer(values);
      var packet := Pack(values);
      SendToAll(sessionA, count, packet);
    }

    method ProxySCAttack2(sessionA: seq<int>, count: nat, id: U32Int, dir: U8Int, x: U16Int, y: U16Int)
      requires count <= |sessionA|
      modifies this`sent
      ensures sent == old(sent) + ToEach(sessionA[..count], Wire(SCAttack2(id, dir, x, y)))
    {
      var values := [Byte1(SCATTACK2), Byte4(id), Byte1(dir), Byte2(x), Byte2(y)];
      assert values == ServerFields(SCAttack2(id, dir, x, y));
      FitsBuffer(values);
      var packet := Pack(values);
      SendToAll(sessionA, count, packet);
    }

    method ProxySCAttack3(sessionA: seq<int>, count: nat, id: U32Int, dir: U8Int, x: U16Int, y: U16Int)
      requires count <= |sessionA|
      modifies this`sent
      ensures sent == old(sent) + ToEach(sessionA[..count], Wire(SCAttack3(id, dir, x, y)))
    {
      var values := [Byte1(SCATTACK3), Byte4(id), Byte1(dir), Byte2(x), Byte2(y)];
      assert values == ServerFields(SCAttack3(id, dir, x, y));
      FitsBuffer(values);
      var packet := Pack(values);
      SendToAll(sessionA, count, packet);
    }

    method ProxySCDamage(sessionA: seq<int>, count: nat, atk: U32Int, tgt: U32Int, hp: U8Int)
      requires count <= |sessionA|
      modifies this`sent
      ensures sent == old(sent) + ToEach(sessionA[..count], Wire(SCDamage(atk, tgt, hp)))
    {
      var values := [Byte1(SCDAMAGE), Byte4(atk), Byte4(tgt), Byte1(hp)];
      assert values == ServerFields(SCDamage(atk, tgt, hp));
      FitsBuffer(values);
      var packet := Pack(values);
      SendToAll(sessionA, count, packet);
    }
  }

  lemma {:induction false} FitsBuffer(values: seq<TypedValue>)
    requires |values| <= 8
    ensures TotalWidth(values) <= 8 * |values| <= BUFFER_DEFAULT - HEADER
    decreases |values|
  {
    if values != [] {
      FitsBuffer(values[1..]);
    }
  }
}
