/** Fixed-capacity sample arrays and the three copy loops the worklet processors
    run over them. A JavaScript `Float32Array` of capacity n is a `seq<Sample>` of
    length n; each loop is a method over such a sequence, proved equal to a
    slice-based reference definition that the rest of the model reasons with. */
module Buffers {

  /** An audio sample. The adapter only copies samples, so their floating-point
      nature is irrelevant here and a real number stands in for an f32. */
  type Sample = real

  /** `new Float32Array(n).fill(0)`. */
  function Zeros(n: nat): seq<Sample>
  {
    seq(n, _ => 0.0)
  }

  /** Reference: `buf` after `for (i = 0; i < n; ++i) buf[i] = buf[i + offset]`.
      The loop copies forwards with the source ahead of the destination, so it
      never reads a slot it has already overwritten. */
  function ShiftLeft(buf: seq<Sample>, offset: nat, n: nat): seq<Sample>
    requires offset + n <= |buf|
  {
    buf[offset..offset + n] + buf[n..]
  }

  /** Reference: `buf` after `for (i = 0; i < |src|; ++i) buf[at + i] = src[i]`. */
  function Overwrite(buf: seq<Sample>, at: nat, src: seq<Sample>): seq<Sample>
    requires at + |src| <= |buf|
  {
    buf[..at] + src + buf[at + |src|..]
  }

  /** The read loop `for (i = 0; i < n; ++i) out[i] = buf[i]` that fills the
      host's output channel from the head of the delay queue. */
  method CopyHead(buf: seq<Sample>, n: nat) returns (out: seq<Sample>)
    requires n <= |buf|
    ensures |out| == n
    ensures forall i :: 0 <= i < n ==> out[i] == buf[i]
  {
    out := [];
    var i := 0;
    while i < n
      invariant 0 <= i <= n
      invariant |out| == i
      invariant forall k :: 0 <= k < i ==> out[k] == buf[k]
    {
      out := out + [buf[i]];
      i := i + 1;
    }
  }

  /** The in-place shift loop: moves the `n` samples starting at `offset` to the
      front and leaves every slot from `n` on as it was. */
  method ShiftLeftLoop(buf: seq<Sample>, offset: nat, n: nat) returns (r: seq<Sample>)
    requires offset + n <= |buf|
    ensures |r| == |buf|
    ensures forall k :: 0 <= k < n ==> r[k] == buf[offset + k]
    ensures forall k :: n <= k < |buf| ==> r[k] == buf[k]
    ensures r == ShiftLeft(buf, offset, n)
  {
    r := buf;
    var i := 0;
    while i < n
      invariant 0 <= i <= n
      invariant |r| == |buf|
      invariant forall k :: 0 <= k < i ==> r[k] == buf[offset + k]
      invariant forall k :: i <= k < |buf| ==> r[k] == buf[k]
    {
      r := r[i := r[i + offset]];
      i := i + 1;
    }
    assert r == ShiftLeft(buf, offset, n) by {
      var s := ShiftLeft(buf, offset, n);
      assert |s| == |r|;
      forall k | 0 <= k < |r|
        ensures r[k] == s[k]
      {
        if k < n {
          assert s[k] == buf[offset..offset + n][k];
        } else {
          assert s[k] == buf[n..][k - n];
        }
      }
    }
  }

  /** The write loop: copies `src` into `buf` starting at `at`, leaving the
      slots before `at` and after the written range untouched. */
  method OverwriteLoop(buf: seq<Sample>, at: nat, src: seq<Sample>) returns (r: seq<Sample>)
    requires at + |src| <= |buf|
    ensures |r| == |buf|
    ensures forall k :: 0 <= k < at ==> r[k] == buf[k]
    ensures forall k :: 0 <= k < |src| ==> r[at + k] == src[k]
    ensures forall k :: at + |src| <= k < |buf| ==> r[k] == buf[k]
    ensures r == Overwrite(buf, at, src)
  {
    r := buf;
    var i := 0;
    while i < |src|
      invariant 0 <= i <= |src|
      invariant |r| == |buf|
      invariant forall k :: 0 <= k < at ==> r[k] == buf[k]
      invariant forall k :: 0 <= k < i ==> r[at + k] == src[k]
      invariant forall k :: at + i <= k < |buf| ==> r[k] == buf[k]
    {
      r := r[at + i := src[i]];
      i := i + 1;
    }
    assert r == Overwrite(buf, at, src) by {
      var s := Overwrite(buf, at, src);
      assert |s| == |r|;
      forall k | 0 <= k < |r|
        ensures r[k] == s[k]
      {
        if k < at {
          assert s[k] == buf[..at][k];
        } else if k < at + |src| {
          assert s[k] == src[k - at];
          assert r[at + (k - at)] == src[k - at];
        } else {
          assert s[k] == buf[at + |src|..][k - at - |src|];
        }
      }
    }
  }
}
