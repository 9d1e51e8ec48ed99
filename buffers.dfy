/** Buffer.BlockCopy: copying a range of bytes from one buffer into another. */
module Buffers {
  import opened Binary
  import opened Wrappers

  /**
   * `dst` after copying `count` bytes of `src` from `srcOffset` to `dstOffset`,
   * or None when either range does not fit (BlockCopy throws and copies nothing).
   */
  function BlockCopied(src: seq<Byte>, srcOffset: nat, dst: seq<Byte>, dstOffset: nat, count: nat)
    : (r: Option<seq<Byte>>)
    ensures r.Some? <==> srcOffset + count <= |src| && dstOffset + count <= |dst|
    ensures r.Some? ==> |r.value| == |dst|
    ensures r.Some? ==> forall i :: 0 <= i < |dst| ==>
      r.value[i] == if dstOffset <= i < dstOffset + count then src[srcOffset + (i - dstOffset)] else dst[i]
  {
    if srcOffset + count <= |src| && dstOffset + count <= |dst| then
      Some(dst[..dstOffset] + src[srcOffset..srcOffset + count] + dst[dstOffset + count..])
    else
      None
  }

  /**
   * Copies into `dst`. `src` is the source buffer's contents at the call, which
   * also gives the overlapping case its meaning (the source is read before the
   * destination is written). Returns false, leaving `dst` alone, when the copy
   * would throw.
   */
  method BlockCopy(src: seq<Byte>, srcOffset: nat, dst: array<Byte>, dstOffset: nat, count: nat)
    returns (ok: bool)
    modifies dst
    ensures ok == BlockCopied(src, srcOffset, old(dst[..]), dstOffset, count).Some?
    ensures ok ==> dst[..] == BlockCopied(src, srcOffset, old(dst[..]), dstOffset, count).value
    ensures !ok ==> unchanged(dst)
  {
    ok := srcOffset + count <= |src| && dstOffset + count <= dst.Length;
    if !ok {
      return;
    }
    var i := 0;
    while i < count
      invariant 0 <= i <= count
      invariant forall k :: 0 <= k < dst.Length ==>
        dst[k] == if dstOffset <= k < dstOffset + i then src[srcOffset + (k - dstOffset)] else old(dst[k])
    {
      dst[dstOffset + i] := src[srcOffset + i];
      i := i + 1;
    }
    ghost var expected := BlockCopied(src, srcOffset, old(dst[..]), dstOffset, count).value;
    assert dst[..] == expected by {
      forall k | 0 <= k < dst.Length ensures dst[..][k] == expected[k] { }
    }
  }

  /** `(byte[])a.Clone()`: a new array with the same contents. */
  method Clone(a: array<Byte>) returns (c: array<Byte>)
    ensures fresh(c) && c[..] == a[..]
  {
    var contents := a[..];
    c := new Byte[|contents|](i requires 0 <= i < |contents| => contents[i]);
  }
}
