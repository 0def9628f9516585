/** Bytes, and memcpy between two arrays. */
module Bytes {
  type Byte = b: int | 0 <= b < 256 witness 0

  /** memcpy(&dst[d], &src[s], n). */
  method Copy(dst: array<Byte>, d: nat, src: array<Byte>, s: nat, n: nat)
    requires dst != src && d + n <= dst.Length && s + n <= src.Length
    modifies dst
    ensures forall i :: 0 <= i < dst.Length ==> dst[i] == if d <= i < d + n then src[s + i - d] else old(dst[i])
  {
    for k := 0 to n
      invariant forall i :: 0 <= i < dst.Length ==> dst[i] == if d <= i < d + k then src[s + i - d] else old(dst[i])
    {
      dst[d + k] := src[s + k];
    }
  }
}
