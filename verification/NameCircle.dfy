/**
 * Circles in a buffer: labels that lead to a pointer back into themselves. Nothing in a circle can be
 * read, and it stays a circle as long as the bytes of names are kept.
 */
module NameCircle {
  import opened Bytes
  import opened NameDecode
  import opened NameEncode

  /** Literal labels lead from p to q. */
  ghost predicate Chain(b: seq<byte>, p: nat, q: nat)
    decreases q - p
  {
    p == q || (p < q <= |b| && 0 < b[p] < 64 && p + 1 + b[p] <= q && Chain(b, p + 1 + b[p], q))
  }

  lemma {:induction false} ChainExtends(b: seq<byte>, p: nat, q: nat, r: nat)
    requires Chain(b, p, q) && Chain(b, q, r) && q <= r <= |b|
    ensures Chain(b, p, r)
    decreases q - p
  {
    if p < q {
      ChainExtends(b, p + 1 + b[p], q, r);
    }
  }

  lemma {:induction false} ChainKept(b: seq<byte>, b': seq<byte>, p: nat, q: nat)
    requires Chain(b, p, q) && p <= q <= |b| && q <= |b'| && forall i :: p <= i < q ==> b'[i] == b[i]
    ensures Chain(b', p, q)
    decreases q - p
  {
    if p < q {
      ChainKept(b, b', p + 1 + b[p], q);
    }
  }

  lemma ChainUp(b: seq<byte>, p: nat, q: nat)
    requires Chain(b, p, q)
    ensures p <= q
  {
  }

  /** From any label of a circle the decoder gives up: its output grows until it does not fit. */
  lemma {:induction false} CircleFails(b: seq<byte>, p: nat, t: nat, q: nat, out: Text, size: int, jump: nat)
    requires Chain(b, p, q) && Chain(b, t, q) && t < q && q + 2 <= |b| && b[q] >= 0xC0 && Target(b, q) == t
    ensures Expand(b, p, out, size, jump) == None
    decreases size - |out|, MAX_JUMPS + 1 - jump
  {
    if p < |b| && |out| < size - 1 && jump <= MAX_JUMPS {
      if p == q {
        CircleFails(b, t, t, q, out, size, jump + 1);
      } else if |Dotted(out)| + b[p] < size - 1 {
        CircleFails(b, p + 1 + b[p], t, q, Grown(b, p, out), size, 0);
      }
    }
  }

  /** The bytes of [lo, hi) are parts of names. */
  ghost predicate Inked(m: seq<Kind>, lo: nat, hi: nat) {
    hi <= |m| && forall i :: lo <= i < hi ==> InName(m[i])
  }

  /** The labels at p lead into the circle of the pointer at q to t. */
  ghost predicate Circle(b: seq<byte>, m: seq<Kind>, p: nat, t: nat, q: nat) {
    && |b| == |m| && Chain(b, p, q) && Chain(b, t, q) && t < q && q + 2 <= |b| && b[q] >= 0xC0 && Target(b, q) == t
    && Inked(m, p, q + 2) && Inked(m, t, q + 2)
  }

  ghost predicate Dead(b: seq<byte>, m: seq<Kind>, p: nat) {
    exists t: nat, q: nat :: Circle(b, m, p, t, q)
  }

  lemma DeadFails(b: seq<byte>, m: seq<Kind>, p: nat)
    requires Dead(b, m, p)
    ensures Expand(b, p, [], MAX_CNAME_LEN, 0) == None
  {
    hide Expand, Chain;
    var t: nat, q: nat :| Circle(b, m, p, t, q);
    CircleFails(b, p, t, q, [], MAX_CNAME_LEN, 0);
  }

  lemma DeadKept(b: seq<byte>, m: seq<Kind>, b': seq<byte>, m': seq<Kind>, p: nat)
    requires Dead(b, m, p) && Keeps(b, m, b', m')
    ensures Dead(b', m', p)
  {
    hide Chain;
    var t: nat, q: nat :| Circle(b, m, p, t, q);
    ChainUp(b, p, q);
    assert InName(m[q]) && InName(m[q + 1]);
    forall i | p <= i < q + 2 || t <= i < q + 2 ensures i < |b'| && b'[i] == b[i] && m'[i] == m[i] {
      assert InName(m[i]);
    }
    ChainKept(b, b', p, q);
    ChainKept(b, b', t, q);
    assert Circle(b', m', p, t, q);
  }
}
