/** Bitwise OR, shifts and fields over natural numbers, as the tagged pointers and the
    match identifiers use them. Words are naturals; a width is imposed where it matters. */
module Bits {
  import opened Wrappers

  function Pow2(k: nat): (r: nat)
    ensures r >= 1
  {
    if k == 0 then 1 else 2 * Pow2(k - 1)
  }

  /** A counter of the given width, or a natural number. */
  function Cut(bits: Option<nat>, v: nat): nat {
    match bits
    case None => v
    case Some(b) => v % Pow2(b)
  }

  /** Bit by bit disjunction. */
  function Or(a: nat, b: nat): nat
    decreases a + b
  {
    if a == 0 then b
    else if b == 0 then a
    else 2 * Or(a / 2, b / 2) + (if a % 2 == 1 || b % 2 == 1 then 1 else 0)
  }

  lemma {:induction false} OrZero(a: nat)
    ensures Or(a, 0) == a && Or(0, a) == a
  {
  }

  /** OR never loses a bit, so it never falls below either operand. */
  lemma {:induction false} OrAtLeast(a: nat, b: nat)
    ensures Or(a, b) >= a && Or(a, b) >= b
    decreases a + b
  {
    if a != 0 && b != 0 {
      OrAtLeast(a / 2, b / 2);
    }
  }

  /** OR of two k-bit words is a k-bit word. */
  lemma {:induction false} OrWidth(a: nat, b: nat, k: nat)
    requires a < Pow2(k) && b < Pow2(k)
    ensures Or(a, b) < Pow2(k)
    decreases k
  {
    if a != 0 && b != 0 {
      OrWidth(a / 2, b / 2, k - 1);
    }
  }

  lemma {:induction false} Pow2Add(j: nat, k: nat)
    ensures Pow2(j + k) == Pow2(j) * Pow2(k)
    decreases j
  {
    if j > 0 {
      Pow2Add(j - 1, k);
    }
  }

  /** One step of OR exposed at the low bit. */
  lemma OrStep(a: nat, b: nat)
    ensures Or(a, b) == 2 * Or(a / 2, b / 2) + (if a % 2 == 1 || b % 2 == 1 then 1 else 0)
  {
  }

  /** `x << k`, unbounded. */
  function Shl(x: nat, k: nat): nat {
    if k == 0 then x else 2 * Shl(x, k - 1)
  }

  lemma {:induction false} ShlIsProduct(x: nat, k: nat)
    ensures Shl(x, k) == x * Pow2(k)
  {
    if k > 0 {
      ShlIsProduct(x, k - 1);
    }
  }

  lemma {:induction false} ShlSum(x: nat, y: nat, k: nat)
    ensures Shl(x, k) + Shl(y, k) == Shl(x + y, k)
  {
    if k > 0 {
      ShlSum(x, y, k - 1);
    }
  }

  /** OR works field by field: the low k bits and the rest never interact. */
  lemma {:induction false} OrFields(h1: nat, l1: nat, h2: nat, l2: nat, k: nat)
    requires l1 < Pow2(k) && l2 < Pow2(k)
    ensures Or(Shl(h1, k) + l1, Shl(h2, k) + l2) == Shl(Or(h1, h2), k) + Or(l1, l2)
    decreases k
  {
    if k > 0 {
      OrFields(h1, l1 / 2, h2, l2 / 2, k - 1);
      OrStep(Shl(h1, k) + l1, Shl(h2, k) + l2);
      OrStep(l1, l2);
    }
  }

  /** OR of a shifted value with a value below the shift is their sum. */
  lemma OrDisjoint(x: nat, lo: nat, k: nat)
    requires lo < Pow2(k)
    ensures Or(Shl(x, k), lo) == Shl(x, k) + lo
  {
  }

  function Quotient(w: nat, d: nat): nat
    requires d > 0
  {
    w / d
  }

  /** A word splits uniquely into the value above bit k and the k bits below. */
  lemma FieldSplit(hi: nat, lo: nat, k: nat)
    requires lo < Pow2(k)
    ensures (Shl(hi, k) + lo) / Pow2(k) == hi
    ensures (Shl(hi, k) + lo) % Pow2(k) == lo
  {
    ShlIsProduct(hi, k);
    DivModUnique(hi, lo, Pow2(k));
  }

  lemma {:induction false} DivModUnique(q: nat, r: nat, d: nat)
    requires r < d
    ensures (q * d + r) / d == q && (q * d + r) % d == r
  {
    var n := q * d + r;
    assert n == n / d * d + n % d;
    var e := n / d;
    if e > q {
      MulLe(q + 1, e, d);
      assert false;
    } else if e < q {
      MulLe(e + 1, q, d);
      assert false;
    }
  }

  lemma MulLe(a: nat, b: nat, d: nat)
    requires a <= b
    ensures a * d <= b * d
  {
  }

  // ----- Arithmetic cut to k bits -----

  lemma CutNext(k: nat, v: nat)
    ensures (v % Pow2(k) + 1) % Pow2(k) == (v + 1) % Pow2(k)
  {
    var n := Pow2(k);
    var q, r := v / n, v % n;
    assert v == q * n + r;
    if r + 1 == n {
      assert v + 1 == (q + 1) * n + 0;
      DivModUnique(q + 1, 0, n);
      DivModUnique(1, 0, n);
    } else {
      DivModUnique(q, r + 1, n);
      DivModUnique(0, r + 1, n);
    }
  }

  lemma SplitBy(v: nat, n: nat) returns (q: nat, r: nat)
    requires n > 0
    ensures v == q * n + r && r < n && r == v % n
  {
    q, r := v / n, v % n;
  }

  /** The low k bits of a word, and the rest. */
  lemma {:induction false} SplitAt(v: nat, k: nat) returns (hi: nat, lo: nat)
    ensures v == Shl(hi, k) + lo && lo < Pow2(k) && lo == v % Pow2(k)
  {
    hi, lo := SplitBy(v, Pow2(k));
    ShlIsProduct(hi, k);
  }

  lemma {:induction false} OrCut(a: nat, b: nat, k: nat)
    ensures Or(a % Pow2(k), b % Pow2(k)) == Or(a, b) % Pow2(k)
  {
    var h1, l1 := SplitAt(a, k);
    var h2, l2 := SplitAt(b, k);
    OrFields(h1, l1, h2, l2, k);
    OrWidth(l1, l2, k);
    FieldSplit(Or(h1, h2), Or(l1, l2), k);
  }
}
