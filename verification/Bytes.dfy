/** Bytes, big-endian fields and the result types shared by the other modules. */
module Bytes {
  type byte = x: int | 0 <= x < 256

  datatype Option<+T> = None | Some(value: T)

  /** The 16-bit big-endian value at p, as _dns_read_short reads it. */
  function Short(b: seq<byte>, p: nat): nat
    requires p + 2 <= |b|
  {
    b[p] as int * 256 + b[p + 1] as int
  }

  function ShortBytes(v: nat): (s: seq<byte>)
    ensures |s| == 2
  {
    [v / 256 % 256, v % 256]
  }

  function IntBytes(v: nat): (s: seq<byte>)
    ensures |s| == 4
  {
    ShortBytes(v / 65536) + ShortBytes(v % 65536)
  }

  /** The 32-bit big-endian value at p, as _dns_read_int reads it. */
  function Int(b: seq<byte>, p: nat): nat
    requires p + 4 <= |b|
  {
    Short(b, p) * 65536 + Short(b, p + 2)
  }

  /** memcpy of s over b at p. */
  function Write(b: seq<byte>, p: nat, s: seq<byte>): (r: seq<byte>)
    requires p + |s| <= |b|
    ensures |r| == |b|
    ensures r[p..p + |s|] == s
    ensures forall i :: 0 <= i < |b| && !(p <= i < p + |s|) ==> r[i] == b[i]
  {
    b[..p] + s + b[p + |s|..]
  }

  lemma SliceSplit<T>(b: seq<T>, lo: nat, mid: nat, hi: nat)
    requires lo <= mid <= hi <= |b|
    ensures b[lo..hi] == b[lo..mid] + b[mid..hi]
  {
  }

  lemma Regroup<T>(all: seq<T>, a: seq<T>, b: seq<T>, n: nat)
    requires all == a + b && n <= |b|
    ensures all == a + b[..n] + b[n..]
  {
  }

  lemma WriteSpares(b: seq<byte>, p: nat, s: seq<byte>, lo: nat, hi: nat)
    requires p + |s| <= |b| && lo <= hi <= |b| && (hi <= p || p + |s| <= lo)
    ensures Write(b, p, s)[lo..hi] == b[lo..hi]
  {
  }

  lemma ShortAt(b: seq<byte>, p: nat, v: nat)
    requires p + 2 <= |b| && v < 65536 && b[p..p + 2] == ShortBytes(v)
    ensures Short(b, p) == v
  {
    assert b[p] == b[p..p + 2][0] && b[p + 1] == b[p..p + 2][1];
  }

  lemma IntAt(b: seq<byte>, p: nat, v: nat)
    requires p + 4 <= |b| && v < 0x1_0000_0000 && b[p..p + 4] == IntBytes(v)
    ensures Int(b, p) == v
  {
    assert b[p..p + 2] == b[p..p + 4][..2] == ShortBytes(v / 65536);
    assert b[p + 2..p + 4] == b[p..p + 4][2..] == ShortBytes(v % 65536);
    ShortAt(b, p, v / 65536);
    ShortAt(b, p + 2, v % 65536);
  }
}
