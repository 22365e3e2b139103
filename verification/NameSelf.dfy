/**
 * Names that point into themselves. The dictionary compares hashes only, so a suffix can hit the entry
 * of an earlier suffix of the very name being written; the pointer then closes a circle.
 */
module NameSelf {
  import opened Bytes
  import opened NameDecode
  import opened NameEncode
  import opened NameCircle
  import opened NameRoundTrip

  // ---- The call that closes one ----

  /** The entries past reg are labels of the name being written, which starts at `start`. */
  ghost predicate OwnLabels(c: Ctx, k: nat, start: nat)
    requires 0 < c.ptr
  {
    && Chain(c.data, start, c.ptr - 1)
    && forall i :: k <= i < |c.dict| ==> start <= c.dict[i].pos < c.ptr - 1 && Chain(c.data, c.dict[i].pos, c.ptr - 1)
  }

  lemma ChainNext(c: Ctx, l: Text, p: nat)
    requires 0 < c.ptr && c.ptr + |l| <= |c.data| && IsLabel(l) && Chain(c.data, p, c.ptr - 1)
    ensures Chain(After(c, l).data, p, c.ptr + |l|)
  {
    var b, q := After(c, l).data, c.ptr - 1;
    PutLabelIs(c.data, q, l);
    ChainUp(c.data, p, q);
    ChainKept(c.data, b, p, q);
    assert Chain(b, q, q + 1 + |l|);
    ChainExtends(b, p, q, q + 1 + |l|);
  }

  /** The suffix at the length byte before the cursor may have been registered. */
  predicate Noted(c: Ctx, c1: Ctx) {
    c1 == c || (|c1.dict| == |c.dict| + 1 && c.dict <= c1.dict && c1 == c.(dict := c1.dict) && c1.dict[|c.dict|].pos == c.ptr - 1)
  }

  lemma OwnLabelsNext(c: Ctx, c1: Ctx, k: nat, start: nat, l: Text)
    requires 0 < c.ptr && c.ptr + |l| <= |c.data| && IsLabel(l) && OwnLabels(c, k, start) && k <= |c.dict|
    requires Noted(c, c1)
    ensures OwnLabels(After(c1, l), k, start)
  {
    hide Chain;
    ChainNext(c, l, start);
    ChainSelf(c.data, c.ptr - 1);
    ChainNext(c, l, c.ptr - 1);
    assert After(c1, l).data == After(c, l).data;
    ChainUp(c.data, start, c.ptr - 1);
    forall i | k <= i < |c1.dict| ensures start <= c1.dict[i].pos < c.ptr + |l| && Chain(After(c, l).data, c1.dict[i].pos, c.ptr + |l|) {
      if i < |c.dict| {
        assert c1.dict[i] == c.dict[i];
        ChainNext(c, l, c.dict[i].pos);
      }
    }
  }

  lemma ChainSelf(b: seq<byte>, p: nat)
    ensures Chain(b, p, p)
  {
  }

  /** From context c a call closed a circle at `start`: everything from there on is dead, nothing before it changed. */
  ghost predicate Closed(c: Ctx, m: seq<Kind>, k: nat, start: nat, r: Ctx, m': seq<Kind>) {
    && |m'| == |m| == |c.data| == |r.data| && start < c.ptr <= r.ptr < |r.data| && k <= |c.dict| <= |r.dict|
    && r.data[..start] == c.data[..start] && m'[..start] == m[..start] && FreeFrom(m', r.ptr) && c.dict <= r.dict
    && Dead(r.data, m', start) && forall i :: k <= i < |r.dict| ==> Dead(r.data, m', r.dict[i].pos)
  }

  /** The pointer that a hit of the name itself writes. */
  lemma HitWritesCircle(c: Ctx, m: seq<Kind>, reg: seq<Name>, n: Name, start: nat, total: nat) returns (m': seq<Kind>)
    requires 0 < c.ptr && |m| == |c.data| <= MAX_BUFFER && FreeFrom(m, c.ptr - 1) && Inked(m, start, c.ptr - 1)
    requires OwnLabels(c, |reg|, start) && HitsItself(c, reg, n) && |reg| <= |c.dict|
    requires n != [] && n[0] != [] && total > 0 && (total > 1 || Left(c) > 1)
    ensures Lookup(c, Join(n)) == Enc(c, c.dict[FindHash(c.dict, Hash(n))].pos)
    ensures var r := LoopAt(c, c.dict[FindHash(c.dict, Hash(n))].pos, n, total);
            r.ret >= 0 ==> r.ret == total + (r.c.ptr - c.ptr) == total + 1 && Closed(c, m, |reg|, start, r.c, m')
  {
    hide DictHash, Join, Expand, Chain, EncodeLoop, Write, ShortBytes, Target, FreeFrom, Inked, Closed;
    JoinNonEmpty(n);
    var q, t := c.ptr - 1, c.dict[FindHash(c.dict, Hash(n))].pos;
    var r := LoopAt(c, t, n, total);
    m' := m;
    if r.ret >= 0 {
      LoopGoesOn(c, q, 0, t, Join(n), total);
      assert t % 0x4000 == t;
      assert r.c.data == Write(c.data, q, ShortBytes(0xC000 + t));
      PointerPut(c.data, q, t);
      m' := m[q := Length][q + 1 := Length];
      CircleClosed(c, m, |reg|, start, t, r.c, m');
    }
  }

  lemma CircleClosed(c: Ctx, m: seq<Kind>, k: nat, start: nat, t: nat, r: Ctx, m': seq<Kind>)
    requires 0 < c.ptr && c.ptr + 1 < |c.data| == |m| && FreeFrom(m, c.ptr - 1) && Inked(m, start, c.ptr - 1) && OwnLabels(c, k, start) && k <= |c.dict|
    requires start <= t < c.ptr - 1 && Chain(c.data, t, c.ptr - 1) && m' == m[c.ptr - 1 := Length][c.ptr := Length]
    requires r.ptr == c.ptr + 1 && r.dict == c.dict && |r.data| == |c.data| && r.data[..c.ptr - 1] == c.data[..c.ptr - 1]
    requires r.data[c.ptr - 1] >= 0xC0 && Target(r.data, c.ptr - 1) == t
    ensures Closed(c, m, k, start, r, m')
  {
    hide Chain, Target, Dead;
    var q := c.ptr - 1;
    CircleFrom(c, m', start, start, t, r);
    forall i | k <= i < |r.dict| ensures Dead(r.data, m', r.dict[i].pos) {
      CircleFrom(c, m', start, c.dict[i].pos, t, r);
    }
    assert r.data[..start] == r.data[..q][..start] == c.data[..start];
  }

  lemma CircleFrom(c: Ctx, m': seq<Kind>, start: nat, p: nat, t: nat, r: Ctx)
    requires 0 < c.ptr && c.ptr + 1 < |c.data| == |m'| && Inked(m', start, c.ptr + 1)
    requires start <= t < c.ptr - 1 && start <= p && Chain(c.data, t, c.ptr - 1) && Chain(c.data, p, c.ptr - 1)
    requires |r.data| == |c.data| && r.data[..c.ptr - 1] == c.data[..c.ptr - 1]
    requires r.data[c.ptr - 1] >= 0xC0 && Target(r.data, c.ptr - 1) == t
    ensures Dead(r.data, m', p)
  {
    hide Chain, Target;
    var q := c.ptr - 1;
    ChainUp(c.data, p, q);
    forall i | 0 <= i < q ensures r.data[i] == c.data[i] {
      assert r.data[i] == r.data[..q][i];
    }
    ChainKept(c.data, r.data, p, q);
    ChainKept(c.data, r.data, t, q);
    assert Circle(r.data, m', p, t, q);
  }

  lemma PointerPut(b: seq<byte>, q: nat, t: nat)
    requires q + 2 <= |b| && t < 0x4000
    ensures var b' := Write(b, q, ShortBytes(0xC000 + t));
            |b'| == |b| && b'[q] >= 0xC0 && Target(b', q) == t && b'[..q] == b[..q]
  {
    var b' := Write(b, q, ShortBytes(0xC000 + t));
    assert b'[q..q + 2] == ShortBytes(0xC000 + t);
    PointerBytes(b', q, t);
  }

  /** What the scan does to the dictionary when it gives no position. */
  lemma MissAdds(c: Ctx, m: seq<Kind>, reg: seq<Name>, n: Name)
    requires 0 < c.ptr && |reg| <= |c.dict| && Entries(c.data, m, c.dict[..|reg|], reg) && |c.data| <= MAX_BUFFER
    requires n != [] && WellFormed(n) && !SparesItself(c, reg, n) && !HitsItself(c, reg, n)
    ensures var f := Lookup(c, Join(n));
            && f.ret == -1 && Noted(c, f.c)
            && f.c.dict[..|reg|] == c.dict[..|reg|] && !Goes(f.c, reg, n)
  {
    hide NameAt, Hash, Join, Fits, Lookup, DictHash, Entries, Goes, HitsItself;
    assert IsLabel(n[0]);
    FindHashIn(c.dict, |reg|, Hash(n));
    LookupFinds(c, m, reg, n);
    assert Lookup(c, Join(n)).c.dict[..|reg|] == c.dict[..|reg|];
  }

  /** A successful call that points into the name it writes leaves a circle. */
  lemma {:induction false} SelfPointing(c: Ctx, m: seq<Kind>, reg: seq<Name>, n: Name, start: nat, total: nat) returns (m': seq<Kind>)
    requires 0 < c.ptr && |m| == |c.data| <= MAX_BUFFER && FreeFrom(m, c.ptr - 1) && Inked(m, start, c.ptr - 1)
    requires |reg| <= |c.dict| && Entries(c.data, m, c.dict[..|reg|], reg) && OwnLabels(c, |reg|, start)
    requires WellFormed(n) && !SparesItself(c, reg, n) && total > 0 && (total > 1 || Left(c) > 1)
    ensures n != []
    ensures var f := Lookup(c, Join(n)); var r := LoopAt(f.c, f.ret, n, total);
            r.ret >= 0 ==> r.ret == total + (r.c.ptr - c.ptr) && Closed(c, m, |reg|, start, r.c, m')
    decreases |n|
  {
    hide NameAt, Hash, Join, Fits, Lookup, DictHash, Entries, HitsItself, LoopAt, OwnLabels, PutLabel, MarkLabel, FreeFrom, Inked, Closed;
    assert n != [] && IsLabel(n[0]);
    m' := m;
    if HitsItself(c, reg, n) {
      m' := HitWritesCircle(c, m, reg, n, start, total);
    } else {
      MissAdds(c, m, reg, n);
      var c1 := Lookup(c, Join(n)).c;
      OwnLabelsNext(c, c1, |reg|, start, n[0]);
      if LoopAt(c1, -1, n, total).ret >= 0 {
        MoreLabels(c1, reg, n);
        LoopStep(c1, n, total);
        LabelKeeps(c1, m, reg, n[0]);
        OwnStart(c, |reg|, start);
        InkLabel(m, start, c.ptr - 1, |n[0]|);
        var m1 := MarkLabel(m, c.ptr - 1, |n[0]|);
        m' := SelfPointing(After(c1, n[0]), m1, reg, n[1..], start, total + |n[0]| + 1);
        ClosedEarlier(c, c1, m, |reg|, start, n[0], LoopAt(c1, -1, n, total).c, m');
      }
    }
  }

  lemma OwnStart(c: Ctx, k: nat, start: nat)
    requires 0 < c.ptr && OwnLabels(c, k, start)
    ensures start <= c.ptr - 1
  {
    ChainUp(c.data, start, c.ptr - 1);
  }

  lemma InkLabel(m: seq<Kind>, lo: nat, p: nat, k: nat)
    requires lo <= p && p + 1 + k <= |m| && Inked(m, lo, p)
    ensures Inked(MarkLabel(m, p, k), lo, p + 1 + k)
  {
    var r := MarkLabel(m, p, k);
    forall i | lo <= i < p + 1 + k ensures InName(r[i]) {
      if i < p {
        assert r[i] == r[..p][i] == m[i];
      }
    }
  }

  /** What is closed behind a label is closed from before it. */
  lemma ClosedEarlier(c: Ctx, c1: Ctx, m: seq<Kind>, k: nat, start: nat, l: Text, r: Ctx, m': seq<Kind>)
    requires 0 < c.ptr && start <= c.ptr - 1 && c.ptr + |l| <= |c.data| == |m| && k <= |c.dict| && Noted(c, c1)
    requires Closed(After(c1, l), MarkLabel(m, c.ptr - 1, |l|), k, start, r, m')
    ensures Closed(c, m, k, start, r, m')
  {
    hide PutLabel, MarkLabel, FreeFrom, Dead;
    var b, m1, q := After(c1, l).data, MarkLabel(m, c.ptr - 1, |l|), c.ptr - 1;
    assert b[..start] == b[..q][..start] == c.data[..start];
    assert m1[..start] == m1[..q][..start] == m[..start];
  }

  lemma MoreLabels(c: Ctx, reg: seq<Name>, n: Name)
    requires 0 < c.ptr && n != [] && !Goes(c, reg, n)
    ensures |n| > 1
  {
  }

  // ---- Names that are spared ----

  /** The suffixes of n have different hashes. */
  ghost predicate OwnDistinct(n: Name) {
    forall j, k :: 0 <= j < k < |n| ==> Hash(n[j..]) != Hash(n[k..])
  }

  /** No entry past reg has the hash of a suffix of n. */
  ghost predicate NoClash(c: Ctx, k: nat, n: Name) {
    forall i, j :: k <= i < |c.dict| && 0 <= j < |n| ==> c.dict[i].hash != Hash(n[j..])
  }

  lemma {:induction false} DistinctSpares(c: Ctx, reg: seq<Name>, n: Name)
    requires 0 < c.ptr && |reg| <= |c.dict| && OwnDistinct(n) && NoClash(c, |reg|, n)
    ensures SparesItself(c, reg, n)
    decreases |n|
  {
    hide Hash, Join, Fits, Expand;
    if n != [] {
      assert n[0..] == n;
      assert !HitsItself(c, reg, n);
      var c1 := Lookup(c, Join(n)).c;
      ClashNext(c, c1, |reg|, n);
      if c1.ptr + |n[0]| <= |c1.data| {
        DistinctSpares(After(c1, n[0]), reg, n[1..]);
      }
    }
  }

  lemma ClashNext(c: Ctx, c1: Ctx, k: nat, n: Name)
    requires 0 < c.ptr && n != [] && OwnDistinct(n) && NoClash(c, k, n) && c1 == Lookup(c, Join(n)).c
    ensures OwnDistinct(n[1..]) && NoClash(c1, k, n[1..])
  {
    hide Hash, Join, Expand, Lookup, OwnDistinct;
    LookupAdds(c, n);
    TailDistinct(n);
    forall i, j | k <= i < |c1.dict| && 0 <= j < |n[1..]| ensures c1.dict[i].hash != Hash(n[1..][j..]) {
      assert n[1..][j..] == n[j + 1..];
      if i < |c.dict| {
        assert c1.dict[i] == c.dict[i];
      } else {
        WholeDiffers(n, j + 1);
      }
    }
  }

  lemma WholeDiffers(n: Name, k: nat)
    requires 0 < k < |n| && OwnDistinct(n)
    ensures Hash(n) != Hash(n[k..])
  {
    hide Hash;
    assert n[0..] == n;
  }

  lemma TailDistinct(n: Name)
    requires n != [] && OwnDistinct(n)
    ensures OwnDistinct(n[1..])
  {
    hide Hash;
    forall j, k | 0 <= j < k < |n[1..]| ensures Hash(n[1..][j..]) != Hash(n[1..][k..]) {
      assert n[1..][j..] == n[j + 1..] && n[1..][k..] == n[k + 1..];
    }
  }

  lemma LookupAdds(c: Ctx, n: Name)
    requires 0 < c.ptr
    ensures var r := Lookup(c, Join(n)).c; r.dict == c.dict || (|r.dict| == |c.dict| + 1 && c.dict <= r.dict && r.dict[|c.dict|].hash == Hash(n))
  {
    hide DictHash, Join, Expand;
  }

  // ---- A family of them ----

  /** "1ltxxpe": with its dot the hash is 0, so the label does not count in the hash of a name. */
  const ZERO_LABEL: Text := [49, 108, 116, 120, 120, 112, 101]

  lemma HashNext(s: Text, x: byte, t: Text, h: nat)
    requires x < 128 && t == s + [x] && DictHash(s) == h
    ensures DictHash(t) == (x as int + 31 * h) % 0x1_0000_0000
  {
    assert t[..|s|] == s;
  }

  lemma FirstHalf()
    ensures DictHash([49, 108, 116, 120]) == 1567263
  {
    hide DictHash;
    HashNothing();
    HashNext([], 49, [49], 0);
    HashNext([49], 108, [49, 108], 49);
    HashNext([49, 108], 116, [49, 108, 116], 1627);
    HashNext([49, 108, 116], 120, [49, 108, 116, 120], 50553);
  }

  lemma ZeroHash()
    ensures DictHash(ZERO_LABEL + [DOT]) == 0
  {
    hide DictHash;
    FirstHalf();
    HashNext([49, 108, 116, 120], 120, [49, 108, 116, 120, 120], 1567263);
    HashNext([49, 108, 116, 120, 120], 112, [49, 108, 116, 120, 120, 112], 48585273);
    HashNext([49, 108, 116, 120, 120, 112], 101, ZERO_LABEL, 1506143575);
    HashNext(ZERO_LABEL, DOT, ZERO_LABEL + [DOT], 3740777966);
  }

  lemma HashNothing()
    ensures DictHash([]) == 0
  {
  }

  lemma {:induction false} HashBehind(a: Text, b: Text)
    requires DictHash(a) == 0
    ensures DictHash(a + b) == DictHash(b)
    decreases |b|
  {
    if b == [] {
      assert a + b == a;
    } else {
      var k := |b| - 1;
      HashBehind(a, b[..k]);
      assert (a + b)[..|a| + k] == a + b[..k] && (a + b)[|a| + k] == b[k];
    }
  }

  lemma ZeroBefore(rest: Name)
    requires rest != []
    ensures var n := [ZERO_LABEL] + rest; Join(n) == ZERO_LABEL + ([DOT] + Join(rest)) && Hash(n) == Hash(rest)
  {
    hide DictHash;
    JoinStep(ZERO_LABEL, rest);
    ZeroHash();
    HashBehind(ZERO_LABEL + [DOT], Join(rest));
    assert ZERO_LABEL + [DOT] + Join(rest) == ZERO_LABEL + ([DOT] + Join(rest));
  }

  /** The iterations that copy one label, when there is room. */
  lemma {:induction false} CopiesWithRoom(c: Ctx, lenPos: nat, num: nat, word: Text, tail: Text, total: nat)
    requires lenPos < c.ptr && (forall i :: 0 <= i < |word| ==> word[i] != DOT) && total > 0 && Left(c) > |word|
    ensures EncodeLoop(c, lenPos, num, -1, word + tail, total)
            == EncodeLoop(c.(data := Write(c.data, c.ptr, word), ptr := c.ptr + |word|), lenPos, num + |word|, -1, tail, total + |word|)
    decreases |word|
  {
    hide EncodeLoop, Write;
    if word == [] {
      assert word + tail == tail;
      WriteNothing(c.data, c.ptr);
    } else {
      CopiesChar(c, lenPos, num, word + tail, total);
      assert (word + tail)[1..] == word[1..] + tail;
      CopiesWithRoom(c.(data := c.data[c.ptr := word[0]], ptr := c.ptr + 1), lenPos, num + 1, word[1..], tail, total + 1);
      WriteStep(c.data, c.ptr, word);
    }
  }

  /** The first scan of the call registers the name. */
  lemma Registers(c: Ctx, n: Name)
    requires c.dict == [] && 0 < c.ptr <= |c.data| <= MAX_BUFFER && n != [] && n[0] != [] && Hash(n) != 0
    ensures Lookup(c, Join(n)) == Enc(c.(dict := [DictItem(Hash(n), c.ptr - 1)]), -1)
  {
    hide DictHash, Join, Expand;
    JoinNonEmpty(n);
  }

  /** Over a zero byte the label just written reads to an end. */
  lemma LabelReads(b: seq<byte>, p: nat, l: Text)
    requires IsLabel(l) && p + 1 + |l| < |b| && b[p] == |l| && b[p + 1 + |l|] == 0
    ensures Expand(b, p, [], MAX_CNAME_LEN, 0).Some?
  {
    hide Expand;
    ExpandOne(b, p);
    ExpandRoot(b, p + 1 + |l|, Grown(b, p, []), MAX_CNAME_LEN, 0);
  }

  lemma ExpandOne(b: seq<byte>, p: nat)
    requires p < |b| && 0 < b[p] < 64 && p + 1 + b[p] <= |b|
    ensures Expand(b, p, [], MAX_CNAME_LEN, 0) == Expand(b, p + 1 + b[p], Grown(b, p, []), MAX_CNAME_LEN, 0)
  {
  }

  /** The context behind the label, with the whole name registered. */
  function BehindZero(c: Ctx, h: nat): (r: Ctx)
    requires c.ptr + 8 <= |c.data|
    ensures r.dict == [DictItem(h, c.ptr)] && r.ptr == c.ptr + 9 && |r.data| == |c.data|
  {
    After(c.(ptr := c.ptr + 1, dict := [DictItem(h, c.ptr)]), ZERO_LABEL)
  }

  lemma ZeroIsLabel()
    ensures IsLabel(ZERO_LABEL) && |ZERO_LABEL| == 7
  {
  }

  /** The call comes to the second label. */
  lemma ZeroCall(c: Ctx, rest: Name)
    requires c.dict == [] && |c.data| <= MAX_BUFFER && c.ptr + 10 < |c.data| && rest != [] && Hash(rest) != 0
    ensures var n, c1 := [ZERO_LABEL] + rest, c.(ptr := c.ptr + 1);
            Lookup(c1, Join(n)) == Enc(c1.(dict := [DictItem(Hash(rest), c.ptr)]), -1)
    ensures var found := Lookup(BehindZero(c, Hash(rest)), Join(rest));
            EncodeName(c, Join([ZERO_LABEL] + rest)) == EncodeLoop(found.c, c.ptr + 8, 0, found.ret, Join(rest), 9)
  {
    hide DictHash, Hash, Join, EncodeLoop, Lookup, PutLabel;
    ZeroIsLabel();
    ZeroBefore(rest);
    var c1 := c.(ptr := c.ptr + 1);
    Registers(c1, [ZERO_LABEL] + rest);
    SecondLabel(c1.(dict := [DictItem(Hash(rest), c.ptr)]), ZERO_LABEL, Join(rest));
  }

  /** There the scan finds the name itself. */
  lemma ZeroHit(c: Ctx, h: nat)
    requires |c.data| <= MAX_BUFFER && c.ptr + 10 < |c.data| && c.data[c.ptr + 8] == 0
    ensures var c4 := BehindZero(c, h); OwnLabels(c4, 0, c.ptr) && FindHash(c4.dict, h) == 0
    ensures Expand(BehindZero(c, h).data, c.ptr, [], MAX_CNAME_LEN, 0).Some?
  {
    hide Expand, Chain, PutLabel;
    ZeroIsLabel();
    var c1 := c.(ptr := c.ptr + 1, dict := []);
    var c2 := c1.(dict := [DictItem(h, c.ptr)]);
    ChainSelf(c.data, c.ptr);
    OwnLabelsNext(c1, c2, 0, c.ptr, ZERO_LABEL);
    AfterZero(c2, ZERO_LABEL);
    LabelReads(BehindZero(c, h).data, c.ptr, ZERO_LABEL);
  }

  /**
   * Whatever follows that label: the name is written as the label and a pointer to itself, the call
   * reports ten bytes, and what was written cannot be read.
   */
  lemma PointsToItself(c: Ctx, rest: Name)
    requires c.dict == [] && |c.data| <= MAX_BUFFER && c.ptr + 10 < |c.data| && c.data[c.ptr + 8] == 0
    requires rest != [] && WellFormed(rest) && Hash(rest) != 0
    ensures var r := EncodeName(c, Join([ZERO_LABEL] + rest));
            r.ret == 10 && Expand(r.c.data, c.ptr, [], MAX_CNAME_LEN, 0) == None
    ensures !SparesItself(c.(ptr := c.ptr + 1), [], [ZERO_LABEL] + rest)
  {
    hide DictHash, Hash, Join, Expand, EncodeLoop, Lookup, Chain, BehindZero, SparesItself, EncodeName, OwnLabels;
    assert IsLabel(rest[0]);
    ZeroCall(c, rest);
    ZeroHit(c, Hash(rest));
    var c4 := BehindZero(c, Hash(rest));
    var m := seq(|c.data|, i => if i < c.ptr + 8 then Length else Free);
    var m' := HitWritesCircle(c4, m, [], rest, c.ptr, 9);
    PointerFollows(c4, c.ptr, rest, 9);
    ClosedFails(c4, m, 0, c.ptr, EncodeName(c, Join([ZERO_LABEL] + rest)).c, m');
    ZeroUnspared(c, rest);
  }

  lemma ClosedFails(c: Ctx, m: seq<Kind>, k: nat, start: nat, r: Ctx, m': seq<Kind>)
    requires Closed(c, m, k, start, r, m')
    ensures Expand(r.data, start, [], MAX_CNAME_LEN, 0) == None
  {
    DeadFails(r.data, m', start);
  }

  lemma ZeroUnspared(c: Ctx, rest: Name)
    requires c.dict == [] && |c.data| <= MAX_BUFFER && c.ptr + 10 < |c.data| && rest != [] && Hash(rest) != 0
    requires HitsItself(BehindZero(c, Hash(rest)), [], rest)
    ensures !SparesItself(c.(ptr := c.ptr + 1), [], [ZERO_LABEL] + rest)
  {
    hide DictHash, Hash, Join, Expand, Lookup, HitsItself, EncodeName, PutLabel;
    ZeroIsLabel();
    ZeroCall(c, rest);
    assert ([ZERO_LABEL] + rest)[1..] == rest;
    NoneToHit(c.(ptr := c.ptr + 1), [ZERO_LABEL] + rest);
    var n, c1 := [ZERO_LABEL] + rest, c.(ptr := c.ptr + 1);
    assert !SparesItself(BehindZero(c, Hash(rest)), [], rest);
    assert After(Lookup(c1, Join(n)).c, n[0]) == BehindZero(c, Hash(rest));
    assert !Goes(Lookup(c1, Join(n)).c, [], n);
  }

  lemma NoneToHit(c: Ctx, n: Name)
    requires c.dict == []
    ensures !HitsItself(c, [], n)
  {
    hide Hash, Expand;
  }

  lemma SecondLabel(c: Ctx, l: Text, tail: Text)
    requires 0 < c.ptr && IsLabel(l) && Left(c) > |l| + 1
    ensures var found := Lookup(After(c, l), tail);
            EncodeLoop(c, c.ptr - 1, 0, -1, l + ([DOT] + tail), 1) == EncodeLoop(found.c, c.ptr + |l|, 0, found.ret, tail, |l| + 2)
  {
    hide EncodeLoop, Lookup, Write, PutLabel, IsLabel, After;
    LabelPlain(l);
    AfterIs(c, l);
    CopiesWithRoom(c, c.ptr - 1, 0, l, [DOT] + tail, 1);
    LoopDot(c.(data := Write(c.data, c.ptr, l), ptr := c.ptr + |l|), c.ptr - 1, |l|, tail, 1 + |l|);
  }

  lemma AfterIs(c: Ctx, l: Text)
    requires 0 < c.ptr && IsLabel(l) && c.ptr + |l| <= |c.data|
    ensures After(c, l) == c.(data := Write(c.data, c.ptr, l)[c.ptr - 1 := |l|], ptr := c.ptr + |l| + 1)
  {
    hide Write, PutLabel;
    PutLabelIs(c.data, c.ptr - 1, l);
  }

  lemma LabelPlain(l: Text)
    requires IsLabel(l)
    ensures |l| < 64 && forall i :: 0 <= i < |l| ==> l[i] != DOT
  {
  }

  lemma AfterZero(c: Ctx, l: Text)
    requires 0 < c.ptr && IsLabel(l) && c.ptr + |l| < |c.data|
    ensures var b := After(c, l).data; b[c.ptr - 1] == |l| && b[c.ptr + |l|] == c.data[c.ptr + |l|]
  {
    PutLabelIs(c.data, c.ptr - 1, l);
  }

  lemma PointerFollows(c: Ctx, offset: nat, n: Name, total: nat)
    requires 0 < c.ptr && Left(c) > 1 && n != [] && n[0] != []
    ensures LoopAt(c, offset, n, total).ret == total + 1
  {
    hide Join, Lookup;
    JoinNonEmpty(n);
  }
}
