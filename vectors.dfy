/**
 * The two operations of the OpenSees Vector class that a PathSeries relies on: the
 * absolute value of an entry, and Assemble. Vector's Assemble adds a vector into another
 * at an offset; a PathSeries only assembles into a freshly allocated, zero-filled vector,
 * where adding and writing give the same slots, so it is modelled as a write. The copy
 * constructor of a Vector is the same write at offset 0 into a fresh buffer.
 */
module Vectors {

  /** fabs on a double. */
  function Abs(x: real): (r: real)
    ensures r >= 0.0 && (r == x || r == -x)
  {
    if x < 0.0 then -x else x
  }

  /**
   * Writes `src` into `dst` starting at slot `offset`; the other slots keep their values.
   * On the zero-filled targets PathSeries uses, this is what adding `src` there gives.
   */
  method Assemble(dst: array<real>, src: seq<real>, offset: nat)
    requires offset + |src| <= dst.Length
    modifies dst
    ensures dst[..offset] == old(dst[..offset])
    ensures dst[offset..offset + |src|] == src
    ensures dst[offset + |src|..] == old(dst[offset + |src|..])
  {
    var i := 0;
    while i < |src|
      invariant 0 <= i <= |src|
      invariant dst[..offset] == old(dst[..offset])
      invariant dst[offset..offset + i] == src[..i]
      invariant dst[offset + i..] == old(dst[offset + i..])
    {
      dst[offset + i] := src[i];
      i := i + 1;
    }
  }
}
