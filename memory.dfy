/** Writing a block of elements into a larger buffer: SDL_memcpy and the
    element-by-element stores of src/main.cpp. */
module Memory {

  /** `a` with the elements from `at` on replaced by `b`. */
  function Overwrite<T>(a: seq<T>, at: nat, b: seq<T>): (r: seq<T>)
    requires at + |b| <= |a|
    ensures |r| == |a|
    ensures forall k :: 0 <= k < |r| ==> r[k] == if at <= k < at + |b| then b[k - at] else a[k]
  {
    a[..at] + b + a[at + |b|..]
  }

  /** Two adjacent writes are one write of the concatenation. */
  lemma OverwriteTwice<T>(a: seq<T>, at: nat, b: seq<T>, c: seq<T>)
    requires at + |b| + |c| <= |a|
    ensures Overwrite(Overwrite(a, at, b), at + |b|, c) == Overwrite(a, at, b + c)
  {
  }

  /** The block just written reads back unchanged. */
  lemma OverwriteReadBack<T>(a: seq<T>, at: nat, b: seq<T>)
    requires at + |b| <= |a|
    ensures Overwrite(a, at, b)[at..at + |b|] == b
  {
  }

  /** One more store just past the block extends the block by that element. */
  lemma OverwriteExtend<T>(a: seq<T>, at: nat, b: seq<T>, x: T)
    requires at + |b| < |a|
    ensures Overwrite(a, at, b)[at + |b| := x] == Overwrite(a, at, b + [x])
  {
  }

  /** SDL_memcpy(dst + at, src, |src| elements). */
  method CopyInto<T>(dst: array<T>, at: nat, src: seq<T>)
    requires at + |src| <= dst.Length
    modifies dst
    ensures dst[..] == Overwrite(old(dst[..]), at, src)
  {
    var i := 0;
    while i < |src|
      invariant 0 <= i <= |src|
      invariant dst[..] == Overwrite(old(dst[..]), at, src[..i])
    {
      assert src[..i + 1] == src[..i] + [src[i]];
      OverwriteExtend(old(dst[..]), at, src[..i], src[i]);
      dst[at + i] := src[i];
      i := i + 1;
    }
    assert src[..i] == src;
  }
}
