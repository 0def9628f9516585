/** The tagged pointers of the CAS containers: the node address in the low bits, a tag above
    it, 48 and 16 bits in the code. This module says what the word arithmetic of Enqueue does:
    NextCountFields is the pass of LockFreeQueue with tags of 16 bits, AgreesWithModel says
    exactly when it is the pass with natural tags. Nothing depends on the two widths, so they
    are parameters; CODE_LAYOUT is the one in use. */
module TaggedPointer {
  import opened Bits

  datatype Layout = Layout(adr: nat, tag: nat)

  const CODE_LAYOUT := Layout(48, 16)

  function Pack(l: Layout, adr: nat, tag: nat): nat {
    Shl(tag, l.adr) + adr
  }

  /** `w & ADRMASK`. */
  function Address(l: Layout, w: nat): nat {
    w % Pow2(l.adr)
  }

  function Tag(l: Layout, w: nat): nat {
    Quotient(w, Pow2(l.adr))
  }

  /** `w & TAGMASK`. */
  function TagPart(l: Layout, w: nat): nat {
    Shl(Tag(l, w), l.adr)
  }

  /** One pass over lines 57 to 61: the 64-bit sum of the tag part and MAKETAG, then OR. */
  function NextCount(l: Layout, countnode: nat, oldtail: nat): nat {
    Or(countnode, (TagPart(l, oldtail) + Shl(1, l.adr)) % Pow2(l.tag + l.adr))
  }

  predicate IsWord(l: Layout, w: nat) {
    w < Pow2(l.tag + l.adr)
  }

  lemma WordSplits(l: Layout, w: nat)
    ensures w == Pack(l, Address(l, w), Tag(l, w)) && Address(l, w) < Pow2(l.adr)
    ensures IsWord(l, w) <==> Tag(l, w) < Pow2(l.tag)
  {
    ShlIsProduct(Tag(l, w), l.adr);
    PackIsWord(l, Address(l, w), Tag(l, w));
  }

  lemma PackIsWord(l: Layout, adr: nat, tag: nat)
    requires adr < Pow2(l.adr)
    ensures IsWord(l, Pack(l, adr, tag)) <==> tag < Pow2(l.tag)
  {
    ShlIsProduct(tag, l.adr);
    Pow2Add(l.tag, l.adr);
    if tag < Pow2(l.tag) {
      MulLe(tag + 1, Pow2(l.tag), Pow2(l.adr));
    } else {
      MulLe(Pow2(l.tag), tag, Pow2(l.adr));
    }
  }

  /** Packing loses nothing, so comparing words compares address and tag together. */
  lemma PackRoundTrip(l: Layout, adr: nat, tag: nat)
    requires adr < Pow2(l.adr)
    ensures Address(l, Pack(l, adr, tag)) == adr && Tag(l, Pack(l, adr, tag)) == tag
  {
    FieldSplit(tag, adr, l.adr);
  }

  /** Adding MAKETAG to a tag part carries out of the word exactly at the last tag. */
  lemma IncrementTag(l: Layout, oldtail: nat)
    requires IsWord(l, oldtail)
    ensures (TagPart(l, oldtail) + Shl(1, l.adr)) % Pow2(l.tag + l.adr)
         == Shl((Tag(l, oldtail) + 1) % Pow2(l.tag), l.adr)
  {
    var tag := Tag(l, oldtail);
    assert tag < Pow2(l.tag) by {
      WordSplits(l, oldtail);
    }
    ShlSum(tag, 1, l.adr);
    TagCarry(l, tag + 1);
  }

  lemma TagCarry(l: Layout, tag: nat)
    requires tag <= Pow2(l.tag)
    ensures Pack(l, 0, tag) % Pow2(l.tag + l.adr) == Shl(tag % Pow2(l.tag), l.adr)
  {
    if tag == Pow2(l.tag) {
      ShlIsProduct(tag, l.adr);
      Pow2Add(l.tag, l.adr);
      ShlIsProduct(0, l.adr);
      Wrapped(Pow2(l.tag + l.adr));
      Wrapped(Pow2(l.tag));
    } else {
      PackIsWord(l, 0, tag);
      InRange(Pack(l, 0, tag), Pow2(l.tag + l.adr));
      InRange(tag, Pow2(l.tag));
    }
  }

  lemma Wrapped(n: nat)
    requires n > 0
    ensures n % n == 0
  {
    DivModUnique(1, 0, n);
  }

  lemma InRange(x: nat, n: nat)
    requires x < n
    ensures x % n == x
  {
    DivModUnique(0, x, n);
  }

  /** One pass keeps the node address and ORs the next tag into the tag field. */
  lemma NextCountFields(l: Layout, countnode: nat, oldtail: nat)
    requires IsWord(l, countnode) && IsWord(l, oldtail)
    ensures IsWord(l, NextCount(l, countnode, oldtail))
    ensures Address(l, NextCount(l, countnode, oldtail)) == Address(l, countnode)
    ensures Tag(l, NextCount(l, countnode, oldtail)) == Or(Tag(l, countnode), (Tag(l, oldtail) + 1) % Pow2(l.tag))
  {
    WordSplits(l, countnode);
    IncrementTag(l, oldtail);
    OrPack(l, Address(l, countnode), Tag(l, countnode), (Tag(l, oldtail) + 1) % Pow2(l.tag));
  }

  /** OR of a packed word and a bare tag. */
  lemma OrPack(l: Layout, adr: nat, tag1: nat, tag2: nat)
    requires adr < Pow2(l.adr) && tag1 < Pow2(l.tag) && tag2 < Pow2(l.tag)
    ensures var w := Or(Pack(l, adr, tag1), Shl(tag2, l.adr));
      && w == Pack(l, adr, Or(tag1, tag2))
      && IsWord(l, w) && Address(l, w) == adr && Tag(l, w) == Or(tag1, tag2)
  {
    assert Or(Pack(l, adr, tag1), Shl(tag2, l.adr)) == Pack(l, adr, Or(tag1, tag2)) by {
      OrFields(tag1, adr, tag2, 0, l.adr);
      OrZero(adr);
    }
    OrWidth(tag1, tag2, l.tag);
    PackIsWord(l, adr, Or(tag1, tag2));
    PackRoundTrip(l, adr, Or(tag1, tag2));
  }

  /** `countnode` after the passes of one Enqueue call that read these tails. */
  function Accumulate(l: Layout, countnode: nat, tails: seq<nat>): nat
    decreases |tails|
  {
    if tails == [] then countnode
    else NextCount(l, Accumulate(l, countnode, tails[..|tails| - 1]), tails[|tails| - 1])
  }

  /** However many attempts failed before, the pointer offered to the tail CAS names the new
      node, and its tag exceeds the tag it would replace if and only if that tag is not the
      last 16-bit value. */
  lemma {:induction false} OfferedTag(l: Layout, node: nat, tails: seq<nat>)
    requires node < Pow2(l.adr) && |tails| > 0
    requires forall i :: 0 <= i < |tails| ==> IsWord(l, tails[i])
    ensures var w := Accumulate(l, node, tails); var last := tails[|tails| - 1];
      && IsWord(l, w) && Address(l, w) == node
      && (Tag(l, w) > Tag(l, last) <==> Tag(l, last) != Pow2(l.tag) - 1)
    decreases |tails|
  {
    AccumulateKeepsNode(l, node, tails[..|tails| - 1]);
    var before, last := Accumulate(l, node, tails[..|tails| - 1]), tails[|tails| - 1];
    NextCountFields(l, before, last);
    WordSplits(l, last);
    WordSplits(l, NextCount(l, before, last));
    OrAtLeast(Tag(l, before), (Tag(l, last) + 1) % Pow2(l.tag));
    if Tag(l, last) != Pow2(l.tag) - 1 {
      InRange(Tag(l, last) + 1, Pow2(l.tag));
    }
  }

  lemma {:induction false} AccumulateKeepsNode(l: Layout, node: nat, tails: seq<nat>)
    requires node < Pow2(l.adr)
    requires forall i :: 0 <= i < |tails| ==> IsWord(l, tails[i])
    ensures IsWord(l, Accumulate(l, node, tails)) && Address(l, Accumulate(l, node, tails)) == node
    decreases |tails|
  {
    if tails == [] {
      PackRoundTrip(l, node, 0);
      PackIsWord(l, node, 0);
    } else {
      AccumulateKeepsNode(l, node, tails[..|tails| - 1]);
      NextCountFields(l, Accumulate(l, node, tails[..|tails| - 1]), tails[|tails| - 1]);
    }
  }

  /** On every pass the tag field is what natural numbers give, cut to the width of the field. */
  lemma TagIsModular(l: Layout, countnode: nat, oldtail: nat)
    requires IsWord(l, countnode) && IsWord(l, oldtail)
    ensures Tag(l, NextCount(l, countnode, oldtail)) == Or(Tag(l, countnode), Tag(l, oldtail) + 1) % Pow2(l.tag)
  {
    NextCountFields(l, countnode, oldtail);
    WordSplits(l, countnode);
    WordSplits(l, oldtail);
    var c, t := Tag(l, countnode), Tag(l, oldtail) + 1;
    if t == Pow2(l.tag) {
      LastTag(l, c);
      Wrapped(t);
      OrZero(c);
    } else {
      InRange(t, Pow2(l.tag));
      OrWidth(c, t, l.tag);
      InRange(Or(c, t), Pow2(l.tag));
    }
  }

  lemma LastTag(l: Layout, c: nat)
    requires c < Pow2(l.tag)
    ensures Or(c, Pow2(l.tag)) == Pow2(l.tag) + c
    ensures Or(c, Pow2(l.tag)) % Pow2(l.tag) == c
  {
    ShlIsProduct(1, l.tag);
    ShlIsProduct(0, l.tag);
    OrFields(0, c, 1, 0, l.tag);
    OrZero(c);
    OrZero(1);
    DivModUnique(1, c, Pow2(l.tag));
  }

  /** A pass of the code is a pass of the natural-number model if and only if the tag it read is
      not the last one. */
  lemma AgreesWithModel(l: Layout, countnode: nat, oldtail: nat)
    requires IsWord(l, countnode) && IsWord(l, oldtail)
    ensures NextCount(l, countnode, oldtail) == Pack(l, Address(l, countnode), Or(Tag(l, countnode), Tag(l, oldtail) + 1))
       <==> Tag(l, oldtail) != Pow2(l.tag) - 1
  {
    var c, t, w := Tag(l, countnode), Tag(l, oldtail) + 1, NextCount(l, countnode, oldtail);
    NextCountFields(l, countnode, oldtail);
    WordSplits(l, w);
    WordSplits(l, countnode);
    WordSplits(l, oldtail);
    if t == Pow2(l.tag) {
      LastTag(l, c);
      PackIsWord(l, Address(l, countnode), Or(c, t));
    } else {
      InRange(t, Pow2(l.tag));
    }
  }
}
