/** The encoder of NameEncode against the decoder of NameDecode. */
module NameRoundTrip {
  import opened Bytes
  import opened NameDecode
  import opened NameEncode
  import opened NameCircle

  /** Pointers have 14 bits, so larger buffers cannot be addressed. */
  const MAX_BUFFER: nat := 0x4000

  function Hash(n: Name): nat {
    DictHash(Join(n))
  }

  /** A dictionary item whose position spells n and may be pointed at, or, for [], leads into a circle. */
  ghost predicate Entry(data: seq<byte>, m: seq<Kind>, item: DictItem, n: Name) {
    if n == [] then Dead(data, m, item.pos)
    else item.pos < |data| && 0 < data[item.pos] < 64 && NameAt(data, m, item.pos, n)
  }

  ghost predicate Entries(data: seq<byte>, m: seq<Kind>, dict: seq<DictItem>, reg: seq<Name>) {
    |dict| == |reg| && forall i :: 0 <= i < |reg| ==> Entry(data, m, dict[i], reg[i])
  }

  ghost predicate FreeFrom(m: seq<Kind>, p: nat) {
    forall i :: p <= i < |m| ==> m[i] == Free
  }

  /** The decoder accepts the text of n. */
  predicate Fits(n: Name) {
    |Join(n)| < MAX_CNAME_LEN - 1
  }

  /** An entry for n is pointed at when it is hit. */
  predicate Usable(n: Name) {
    n != [] && Fits(n)
  }

  /**
   * The labels the encoder really spells for n: its own labels up to the first suffix whose hash
   * is in the dictionary, then whatever was registered there (unless that cannot be read back).
   */
  function Resolve(dict: seq<DictItem>, reg: seq<Name>, n: Name): Name
    requires |dict| == |reg|
  {
    if n == [] then []
    else
      var i := FindHash(dict, Hash(n));
      if i < |dict| && Usable(reg[i]) then reg[i] else [n[0]] + Resolve(dict, reg, n[1..])
  }

  lemma FindHashIn(dict: seq<DictItem>, k: nat, hash: nat)
    requires k <= |dict|
    ensures FindHash(dict[..k], hash) < k ==> FindHash(dict, hash) == FindHash(dict[..k], hash)
    ensures FindHash(dict[..k], hash) == k ==> FindHash(dict, hash) >= k
  {
    var i, j := FindHash(dict, hash), FindHash(dict[..k], hash);
    if i < k {
      assert dict[..k][i] == dict[i];
    }
    if j < k {
      assert dict[j] == dict[..k][j];
    }
  }

  /** Text of a non-empty name with non-empty first label. */
  lemma JoinNonEmpty(n: Name)
    requires n != [] && n[0] != []
    ensures Join(n) != [] && Join(n)[0] == n[0][0]
  {
  }

  /** The scan for n stops at an entry past reg, one of the name being written, that can be read. */
  ghost predicate HitsItself(c: Ctx, reg: seq<Name>, n: Name) {
    var i := FindHash(c.dict, Hash(n));
    |reg| <= i < |c.dict| && Expand(c.data, c.dict[i].pos, [], MAX_CNAME_LEN, 0).Some?
  }

  /** The dictionary scan, when it does not hit the name itself. */
  lemma LookupFinds(c: Ctx, m: seq<Kind>, reg: seq<Name>, n: Name)
    requires c.ptr > 0 && |reg| <= |c.dict| && Entries(c.data, m, c.dict[..|reg|], reg)
    requires n != [] && n[0] != [] && |c.data| <= MAX_BUFFER && !HitsItself(c, reg, n)
    ensures var r := Lookup(c, Join(n)); var h := FindHash(c.dict[..|reg|], Hash(n));
            if h < |reg| then r == Enc(c, if Usable(reg[h]) then c.dict[h].pos else -1)
            else r.ret == -1 && (r.c == c || (c.ptr - 1 < |c.data| && r.c == c.(dict := c.dict + [DictItem(Hash(n), c.ptr - 1)])))
  {
    hide DictHash, Join, NameAt;
    JoinNonEmpty(n);
    FindHashIn(c.dict, |reg|, Hash(n));
    var h := FindHash(c.dict[..|reg|], Hash(n));
    if h < |reg| {
      assert Entry(c.data, m, c.dict[..|reg|][h], reg[h]);
      if reg[h] == [] {
        DeadFails(c.data, m, c.dict[h].pos);
      } else {
        NameDecodes(c.data, m, c.dict[h].pos, reg[h], [], MAX_CNAME_LEN, 0);
      }
    }
  }

  lemma WriteNothing(b: seq<byte>, p: nat)
    ensures p <= |b| ==> Write(b, p, []) == b
  {
  }

  lemma WriteStep(b: seq<byte>, p: nat, word: Text)
    requires word != [] && p + |word| <= |b|
    ensures Write(b[p := word[0]], p + 1, word[1..]) == Write(b, p, word)
  {
  }

  lemma NeedsRoom(c: Ctx, lenPos: nat, num: nat, offset: int, name: Text, total: nat)
    requires lenPos < c.ptr && EncodeLoop(c, lenPos, num, offset, name, total).ret >= 0
    ensures Left(c) > 0
  {
  }

  lemma CopiesChar(c: Ctx, lenPos: nat, num: nat, name: Text, total: nat)
    requires lenPos < c.ptr && name != [] && name[0] != DOT && total > 0 && (total > 1 || Left(c) > 1)
    ensures Left(c) <= 1 ==> EncodeLoop(c, lenPos, num, -1, name, total).ret == -1
    ensures Left(c) > 1 ==>
              var c1 := c.(data := c.data[c.ptr := name[0]], ptr := c.ptr + 1);
              EncodeLoop(c, lenPos, num, -1, name, total) == EncodeLoop(c1, lenPos, num + 1, -1, name[1..], total + 1)
  {
  }

  /** The inner iterations that copy one label. */
  lemma {:induction false} CopiesLabel(c: Ctx, lenPos: nat, num: nat, word: Text, tail: Text, total: nat)
    requires lenPos < c.ptr && (forall i :: 0 <= i < |word| ==> word[i] != DOT)
    requires total > 0 && (total > 1 || Left(c) > 1)
    ensures var r := EncodeLoop(c, lenPos, num, -1, word + tail, total);
            r.ret >= 0 ==>
              && c.ptr + |word| <= |c.data|
              && r == EncodeLoop(c.(data := Write(c.data, c.ptr, word), ptr := c.ptr + |word|),
                                 lenPos, num + |word|, -1, tail, total + |word|)
    decreases |word|
  {
    hide EncodeLoop, Write;
    if word == [] {
      assert word + tail == tail;
      WriteNothing(c.data, c.ptr);
      if EncodeLoop(c, lenPos, num, -1, tail, total).ret >= 0 {
        NeedsRoom(c, lenPos, num, -1, tail, total);
      }
    } else {
      CopiesChar(c, lenPos, num, word + tail, total);
      if Left(c) > 1 {
        assert (word + tail)[1..] == word[1..] + tail;
        CopiesLabel(c.(data := c.data[c.ptr := word[0]], ptr := c.ptr + 1), lenPos, num + 1, word[1..], tail, total + 1);
        if c.ptr + |word| <= |c.data| {
          WriteStep(c.data, c.ptr, word);
        }
      }
    }
  }

  // ---- One suffix, from its length byte on ----

  /** From context c and roles m, a call with its length byte at lenPos spelled n and registered `more`. */
  ghost predicate Wrote(c: Ctx, m: seq<Kind>, lenPos: nat, r: Ctx, m': seq<Kind>, more: seq<Name>, n: Name) {
    && |m'| == |m| == |c.data| == |r.data| && lenPos < c.ptr <= r.ptr < |r.data|
    && r.data[..lenPos] == c.data[..lenPos] && m'[..lenPos] == m[..lenPos] && FreeFrom(m', r.ptr)
    && NameAt(r.data, m', lenPos, n) && Cursor(r.data, lenPos) == r.ptr
    && c.dict <= r.dict && |r.dict| == |c.dict| + |more| && Entries(r.data, m', r.dict[|c.dict|..], more)
  }

  ghost predicate IsSuffix(s: Name, n: Name) {
    |s| <= |n| && s == n[|n| - |s|..]
  }

  /** The items carry the hashes of the names they spell, and those are suffixes of n. */
  ghost predicate Own(dict: seq<DictItem>, more: seq<Name>, n: Name) {
    |dict| == |more| && forall i :: 0 <= i < |more| ==> dict[i].hash == Hash(more[i]) && more[i] != [] && IsSuffix(more[i], n)
  }

  /** Bytes from lenPos on were free, so every name written before lenPos is kept. */
  lemma KeepsBelow(b: seq<byte>, m: seq<Kind>, b': seq<byte>, m': seq<Kind>, lenPos: nat)
    requires |b'| == |b| == |m| == |m'| && lenPos <= |b| && FreeFrom(m, lenPos)
    requires b'[..lenPos] == b[..lenPos] && m'[..lenPos] == m[..lenPos]
    ensures Keeps(b, m, b', m')
  {
    forall i | 0 <= i < |m| && InName(m[i]) ensures b'[i] == b[i] && m'[i] == m[i] {
      assert i < lenPos;
      assert b'[i] == b'[..lenPos][i] && m'[i] == m'[..lenPos][i];
    }
  }

  lemma EntriesKept(b: seq<byte>, m: seq<Kind>, b': seq<byte>, m': seq<Kind>, dict: seq<DictItem>, reg: seq<Name>)
    requires Keeps(b, m, b', m') && Entries(b, m, dict, reg)
    ensures Entries(b', m', dict, reg)
  {
    hide NameAt, Join, Keeps, Dead;
    forall i | 0 <= i < |reg| ensures Entry(b', m', dict[i], reg[i]) {
      assert Entry(b, m, dict[i], reg[i]);
      if reg[i] == [] {
        DeadKept(b, m, b', m', dict[i].pos);
      } else {
        NameKept(b, m, b', m', dict[i].pos, reg[i]);
        NameInside(b', m', dict[i].pos, reg[i]);
      }
    }
  }

  lemma NameInside(b: seq<byte>, m: seq<Kind>, p: nat, n: Name)
    requires NameAt(b, m, p, n)
    ensures p < |b|
  {
  }

  lemma NameRoot(b: seq<byte>, m: seq<Kind>, p: nat)
    requires p < |b| == |m| && m[p] == Length && b[p] == 0
    ensures NameAt(b, m, p, []) && Cursor(b, p) == p + 1
  {
  }

  lemma NameLabel(b: seq<byte>, m: seq<Kind>, p: nat, l: Text, n: Name)
    requires p < |b| == |m| && m[p] == Length && LabelAt(b, m, p, l) && NameAt(b, m, p + 1 + |l|, n)
    ensures NameAt(b, m, p, [l] + n) && Cursor(b, p) == Cursor(b, p + 1 + |l|)
  {
    assert ([l] + n)[1..] == n;
  }

  lemma NamePointer(b: seq<byte>, m: seq<Kind>, p: nat, n: Name)
    requires p + 2 <= |b| == |m| && m[p] == m[p + 1] == Length && b[p] >= 0xC0 && PointsDown(b, p)
    requires n != [] && NameAt(b, m, Target(b, p), n)
    ensures NameAt(b, m, p, n) && Cursor(b, p) == p + 2
  {
  }

  lemma PointerBytes(b: seq<byte>, p: nat, offset: nat)
    requires p + 2 <= |b| && offset < 0x4000 && b[p..p + 2] == ShortBytes(0xC000 + offset)
    ensures b[p] >= 0xC0 && Target(b, p) == offset
  {
    ShortAt(b, p, 0xC000 + offset);
    assert b[p] == b[p..p + 2][0];
  }

  lemma PointerWritten(c: Ctx, m: seq<Kind>, offset: nat, n: Name) returns (m': seq<Kind>)
    requires 0 < c.ptr && Left(c) > 1 && |m| == |c.data| <= MAX_BUFFER && FreeFrom(m, c.ptr - 1)
    requires n != [] && NameAt(c.data, m, offset, n) && offset < c.ptr - 1 && 0 < c.data[offset] < 64
    ensures Wrote(c, m, c.ptr - 1, EmitPointer(c, c.ptr - 1, offset), m', [], n)
    ensures EmitPointer(c, c.ptr - 1, offset).ptr == c.ptr + 1
  {
    hide NameAt, Cursor, Keeps, Target, ShortBytes, Write;
    var p := c.ptr - 1;
    assert offset % 0x4000 == offset;
    var b := EmitPointer(c, p, offset).data;
    assert b[p..p + 2] == ShortBytes(0xC000 + offset);
    m' := m[p := Length][p + 1 := Length];
    assert b[..p] == c.data[..p] && m'[..p] == m[..p] && FreeFrom(m', p + 2);
    KeepsBelow(c.data, m, b, m', p);
    NameKept(c.data, m, b, m', offset, n);
    PointerBytes(b, p, offset);
    NamePointer(b, m', p, n);
  }

  /** Roles once a literal label of k bytes has its length byte at p. */
  function MarkLabel(m: seq<Kind>, p: nat, k: nat): (r: seq<Kind>)
    requires p + 1 + k <= |m|
    ensures |r| == |m| && r[..p] == m[..p] && r[p] == Length
    ensures forall i :: p < i <= p + k ==> r[i] == Char
    ensures forall i :: p + k < i < |m| ==> r[i] == m[i]
  {
    m[..p] + [Length] + seq(k, _ => Char) + m[p + 1 + k..]
  }

  /** The buffer once label l has been copied behind its length byte at p, and the length stored. */
  function PutLabel(b: seq<byte>, p: nat, l: Text): (r: seq<byte>)
    requires p + 1 + |l| <= |b|
    ensures |r| == |b| && r[..p] == b[..p]
  {
    var r := Write(b, p + 1, l)[p := |l| % 256];
    assert r[..p] == b[..p];
    r
  }

  lemma LabelPut(b: seq<byte>, m: seq<Kind>, p: nat, l: Text)
    requires IsLabel(l) && p + 1 + |l| < |b| == |m|
    ensures LabelAt(PutLabel(b, p, l), MarkLabel(m, p, |l|), p, l)
  {
    var r := Write(b, p + 1, l);
    assert PutLabel(b, p, l)[p + 1..p + 1 + |l|] == r[p + 1..p + 1 + |l|];
  }

  /** The last label of a name: length, text, root label. */
  lemma LastLabelWritten(c: Ctx, m: seq<Kind>, l: Text, total: nat) returns (m': seq<Kind>)
    requires 0 < c.ptr && |m| == |c.data| && FreeFrom(m, c.ptr - 1) && IsLabel(l) && total > 0
    requires c.ptr + |l| <= |c.data|
    requires Finish(c.(data := Write(c.data, c.ptr, l), ptr := c.ptr + |l|), c.ptr - 1, |l|, total + |l|).ret >= 0
    ensures var r := Finish(c.(data := Write(c.data, c.ptr, l), ptr := c.ptr + |l|), c.ptr - 1, |l|, total + |l|);
            Wrote(c, m, c.ptr - 1, r.c, m', [], [l]) && r.ret == total + (r.c.ptr - c.ptr) && 0 < r.c.data[c.ptr - 1] < 64
  {
    hide NameAt, Cursor, LabelAt;
    var p, q := c.ptr - 1, c.ptr + |l|;
    var b := PutLabel(c.data, p, l);
    var r := Finish(c.(data := Write(c.data, c.ptr, l), ptr := c.ptr + |l|), p, |l|, total + |l|);
    assert r.c.data == b[q := 0];
    var m1 := MarkLabel(m, p, |l|);
    m' := m1[q := Length];
    LabelPut(c.data, m, p, l);
    LabelFramed(b, m1, r.c.data, m', p, l);
    NameRoot(r.c.data, m', q);
    NameLabel(r.c.data, m', p, l, []);
    assert [l] + [] == [l];
  }

  lemma LabelFramed(b: seq<byte>, m: seq<Kind>, b': seq<byte>, m': seq<Kind>, p: nat, l: Text)
    requires p < |b| == |m| && LabelAt(b, m, p, l) && |b'| == |m'| && p + 1 + |l| < |b'|
    requires b'[..p + 1 + |l|] == b[..p + 1 + |l|] && m'[..p + 1 + |l|] == m[..p + 1 + |l|]
    ensures LabelAt(b', m', p, l) && b'[p] == b[p] == |l| && 0 < b[p] < 64
  {
    var q := p + 1 + |l|;
    assert b'[p] == b'[..q][p];
    assert b'[p + 1..q] == b'[..q][p + 1..] == b[..q][p + 1..] == b[p + 1..q];
    forall i | p < i <= p + |l| ensures m'[i] == Char {
      assert m'[i] == m'[..q][i];
    }
  }

  /** Unless it is the very first, an iteration that finds one byte left ends in failure. */
  lemma LoopGoesOn(c: Ctx, lenPos: nat, num: nat, offset: int, name: Text, total: nat)
    requires lenPos < c.ptr && name != [] && total > 0 && (total > 1 || Left(c) > 1)
    requires EncodeLoop(c, lenPos, num, offset, name, total).ret >= 0
    ensures Left(c) > 1
    ensures offset >= 0 ==>
              EncodeLoop(c, lenPos, num, offset, name, total) == Enc(EmitPointer(c, lenPos, offset), total + 1)
  {
    hide Lookup;
  }

  lemma LoopDot(c: Ctx, lenPos: nat, num: nat, rest: Text, total: nat)
    requires lenPos < c.ptr && Left(c) > 1 && 0 <= num < 256
    ensures var found := Lookup(c.(data := c.data[lenPos := num], ptr := c.ptr + 1), rest);
            EncodeLoop(c, lenPos, num, -1, [DOT] + rest, total) == EncodeLoop(found.c, c.ptr, 0, found.ret, rest, total + 1)
  {
    hide Lookup;
    assert ([DOT] + rest)[1..] == rest;
  }

  /** The context once label l has been written at the length byte before the cursor, with its dot. */
  function After(c: Ctx, l: Text): (r: Ctx)
    requires 0 < c.ptr && c.ptr + |l| <= |c.data|
    ensures r.ptr == c.ptr + |l| + 1 && r.dict == c.dict && |r.data| == |c.data|
  {
    c.(data := PutLabel(c.data, c.ptr - 1, l), ptr := c.ptr + |l| + 1)
  }

  /**
   * The call does not point into the name it is writing: up to the first hit among the entries of reg,
   * no suffix has the hash of an earlier suffix that was registered and that reads to an end over the
   * bytes already in the buffer. The cursor is behind the length byte of n.
   */
  ghost predicate SparesItself(c: Ctx, reg: seq<Name>, n: Name)
    requires 0 < c.ptr
    decreases |n|
  {
    n == [] ||
    (var i := FindHash(c.dict, Hash(n)); i < |reg| && i < |c.dict| && Usable(reg[i])) ||
    (!HitsItself(c, reg, n) && Goes(Lookup(c, Join(n)).c, reg, n))
  }

  /** The same behind the dictionary scan for n, when that gave no position. */
  ghost predicate Goes(c: Ctx, reg: seq<Name>, n: Name)
    requires 0 < c.ptr && n != []
    decreases |n|, 0
  {
    c.ptr + |n[0]| <= |c.data| ==> SparesItself(After(c, n[0]), reg, n[1..])
  }

  lemma JoinStep(l: Text, n: Name)
    ensures Join([l] + n) == if n == [] then l else l + [DOT] + Join(n)
    ensures |Join(n)| <= |Join([l] + n)|
  {
    if n != [] {
      assert ([l] + n)[1..] == n;
    }
  }

  lemma EntriesPrepend(b: seq<byte>, m: seq<Kind>, dict: seq<DictItem>, k: nat, more: seq<Name>, n: Name)
    requires k < |dict| && Entries(b, m, dict[k + 1..], more) && Entry(b, m, dict[k], n)
    ensures Entries(b, m, dict[k..], [n] + more)
  {
    hide Entry;
    assert dict[k..] == [dict[k]] + dict[k + 1..];
  }

  /** A literal label in front of an already spelled rest. */
  lemma LabelThenRest(c: Ctx, m: seq<Kind>, l: Text, c3: Ctx, r: Ctx, m': seq<Kind>, more: seq<Name>, rest: Name)
    returns (more': seq<Name>)
    requires 0 < c.ptr && |m| == |c.data| && FreeFrom(m, c.ptr - 1) && IsLabel(l) && c.ptr + |l| < |c.data|
    requires c3.data == PutLabel(c.data, c.ptr - 1, l) && c3.ptr == c.ptr + |l| + 1
    requires Wrote(c3, MarkLabel(m, c.ptr - 1, |l|), c.ptr + |l|, r, m', more, rest)
    requires c3.dict == c.dict || (|c3.dict| == |c.dict| + 1 && c.dict <= c3.dict && c3.dict[|c.dict|].pos == c.ptr + |l|
                                   && 0 < r.data[c.ptr + |l|] < 64 && rest != [])
    ensures Wrote(c, m, c.ptr - 1, r, m', more', [l] + rest) && 0 < r.data[c.ptr - 1] < 64
    ensures more' == if c3.dict == c.dict then more else [rest] + more
  {
    hide NameAt, Cursor, LabelAt, Join, PutLabel, MarkLabel;
    var p, q := c.ptr - 1, c.ptr + |l|;
    var m1 := MarkLabel(m, p, |l|);
    LabelPut(c.data, m, p, l);
    NameMarked(r.data, m', q, rest);
    LabelFramed(c3.data, m1, r.data, m', p, l);
    assert m'[p] == m'[..q][p] == m1[p];
    NameLabel(r.data, m', p, l, rest);
    assert r.data[..p] == r.data[..q][..p] == c.data[..p];
    assert m'[..p] == m'[..q][..p] == m[..p];
    if c3.dict == c.dict {
      more' := more;
    } else {
      assert r.dict[|c.dict|] == c3.dict[|c.dict|];
      more' := [rest] + more;
      EntriesPrepend(r.data, m', r.dict, |c.dict|, more, rest);
    }
  }

  lemma NameMarked(b: seq<byte>, m: seq<Kind>, p: nat, n: Name)
    requires NameAt(b, m, p, n)
    ensures p < |b| == |m| && m[p] == Length
  {
  }

  lemma ResolveStep(dict: seq<DictItem>, reg: seq<Name>, n: Name)
    requires |dict| == |reg| && n != []
    ensures var i := FindHash(dict, Hash(n));
            Resolve(dict, reg, n) == if i < |dict| && Usable(reg[i]) then reg[i] else [n[0]] + Resolve(dict, reg, n[1..])
  {
    hide Hash, Fits;
  }

  lemma ResolveNonEmpty(dict: seq<DictItem>, reg: seq<Name>, n: Name)
    requires |dict| == |reg| && n != []
    ensures Resolve(dict, reg, n) != []
  {
    hide Hash, Fits;
  }

  /** The context of the loop at the length byte of suffix n, whose dictionary scan gave `offset`. */
  ghost predicate AtSuffix(c: Ctx, m: seq<Kind>, reg: seq<Name>, offset: int, n: Name, total: nat) {
    && 0 < c.ptr && |m| == |c.data| <= MAX_BUFFER && FreeFrom(m, c.ptr - 1)
    && |reg| <= |c.dict| && Entries(c.data, m, c.dict[..|reg|], reg)
    && n != [] && WellFormed(n) && (offset < 0 ==> Goes(c, reg, n))
    && total > 0 && (total > 1 || Left(c) > 1)
    && (var h := FindHash(c.dict[..|reg|], Hash(n)); offset == if h < |reg| && Usable(reg[h]) then c.dict[h].pos else -1)
  }

  /** The dictionary scan at a suffix, and the state of the loop behind it. */
  lemma AtLookup(c: Ctx, m: seq<Kind>, reg: seq<Name>, n: Name, total: nat) returns (c3: Ctx, offset: int)
    requires 0 < c.ptr && |m| == |c.data| <= MAX_BUFFER && FreeFrom(m, c.ptr - 1)
    requires |reg| <= |c.dict| && Entries(c.data, m, c.dict[..|reg|], reg)
    requires n != [] && WellFormed(n) && SparesItself(c, reg, n) && total > 0 && (total > 1 || Left(c) > 1)
    ensures var found := Lookup(c, Join(n)); c3 == found.c && offset == found.ret
    ensures c3.data == c.data && c3.ptr == c.ptr && c3.dict[..|reg|] == c.dict[..|reg|]
    ensures c3.dict == c.dict || (offset < 0 && c3.dict == c.dict + [DictItem(Hash(n), c.ptr - 1)])
    ensures AtSuffix(c3, m, reg, offset, n, total)
  {
    hide NameAt, Hash, Join, Fits, Lookup, DictHash, Entries, Goes;
    assert IsLabel(n[0]);
    FindHashIn(c.dict, |reg|, Hash(n));
    LookupFinds(c, m, reg, n);
    var found := Lookup(c, Join(n));
    c3, offset := found.c, found.ret;
    assert c3.dict[..|reg|] == c.dict[..|reg|];
  }

  /** After a label and its dot, the loop is at the next suffix. */
  lemma AtNextSuffix(c: Ctx, m: seq<Kind>, reg: seq<Name>, n: Name, total: nat) returns (c3: Ctx, offset: int)
    requires AtSuffix(c, m, reg, -1, n, total) && |n| > 1 && IsLabel(n[0]) && c.ptr + |n[0]| + 1 < |c.data|
    ensures var found := Lookup(After(c, n[0]), Join(n[1..])); c3 == found.c && offset == found.ret
    ensures c3.data == PutLabel(c.data, c.ptr - 1, n[0]) && c3.ptr == c.ptr + |n[0]| + 1
    ensures c3.dict == c.dict || (offset < 0 && c3.dict == c.dict + [DictItem(Hash(n[1..]), c.ptr + |n[0]|)])
    ensures c3.dict[..|reg|] == c.dict[..|reg|]
    ensures AtSuffix(c3, MarkLabel(m, c.ptr - 1, |n[0]|), reg, offset, n[1..], total + |n[0]| + 1)
    ensures Resolve(c.dict[..|reg|], reg, n) == [n[0]] + Resolve(c.dict[..|reg|], reg, n[1..])
  {
    hide NameAt, Hash, Join, Fits, PutLabel, MarkLabel, Lookup, Resolve, DictHash, Entries, SparesItself, AtSuffix;
    SuffixFacts(c, m, reg, -1, n, total);
    LabelKeeps(c, m, reg, n[0]);
    ResolveStep(c.dict[..|reg|], reg, n);
    c3, offset := AtLookup(After(c, n[0]), MarkLabel(m, c.ptr - 1, |n[0]|), reg, n[1..], total + |n[0]| + 1);
  }

  lemma SuffixFacts(c: Ctx, m: seq<Kind>, reg: seq<Name>, offset: int, n: Name, total: nat)
    requires AtSuffix(c, m, reg, offset, n, total)
    ensures 0 < c.ptr && |m| == |c.data| <= MAX_BUFFER && FreeFrom(m, c.ptr - 1) && total > 0
    ensures |reg| <= |c.dict| && Entries(c.data, m, c.dict[..|reg|], reg) && n != [] && WellFormed(n)
    ensures offset < 0 ==> Goes(c, reg, n) && var h := FindHash(c.dict[..|reg|], Hash(n)); !(h < |reg| && Usable(reg[h]))
  {
    hide Entries, Goes, Hash, Fits;
  }

  /** A label written behind everything else leaves the entries as they are. */
  lemma LabelKeeps(c: Ctx, m: seq<Kind>, reg: seq<Name>, l: Text)
    requires 0 < c.ptr && c.ptr + |l| + 1 < |c.data| == |m| && FreeFrom(m, c.ptr - 1)
    requires |reg| <= |c.dict| && Entries(c.data, m, c.dict[..|reg|], reg)
    ensures var c2, m1 := After(c, l), MarkLabel(m, c.ptr - 1, |l|);
            FreeFrom(m1, c2.ptr - 1) && Entries(c2.data, m1, c2.dict[..|reg|], reg)
  {
    hide NameAt, PutLabel, MarkLabel, Entries;
    var c2, m1 := After(c, l), MarkLabel(m, c.ptr - 1, |l|);
    KeepsBelow(c.data, m, c2.data, m1, c.ptr - 1);
    EntriesKept(c.data, m, c2.data, m1, c.dict[..|reg|], reg);
  }

  /** The loop from the length byte of n on. */
  function LoopAt(c: Ctx, offset: int, n: Name, total: nat): Enc
    requires 0 < c.ptr
  {
    EncodeLoop(c, c.ptr - 1, 0, offset, Join(n), total)
  }

  lemma SuffixByPointer(c: Ctx, m: seq<Kind>, reg: seq<Name>, offset: int, n: Name, total: nat) returns (m': seq<Kind>)
    requires AtSuffix(c, m, reg, offset, n, total) && offset >= 0 && LoopAt(c, offset, n, total).ret >= 0
    ensures var r := LoopAt(c, offset, n, total);
            Wrote(c, m, c.ptr - 1, r.c, m', [], Resolve(c.dict[..|reg|], reg, n)) && r.ret == total + (r.c.ptr - c.ptr)
  {
    hide NameAt, Hash, Join, Fits, Resolve, DictHash, EncodeLoop, EmitPointer, Wrote;
    JoinNonEmpty(n);
    LoopGoesOn(c, c.ptr - 1, 0, offset, Join(n), total);
    ResolveStep(c.dict[..|reg|], reg, n);
    var h := FindHash(c.dict[..|reg|], Hash(n));
    assert Entry(c.data, m, c.dict[..|reg|][h], reg[h]);
    EntryBelow(c.data, m, c.ptr - 1, c.dict[h], reg[h]);
    m' := PointerWritten(c, m, offset, reg[h]);
  }

  lemma SuffixLast(c: Ctx, m: seq<Kind>, reg: seq<Name>, n: Name, total: nat) returns (m': seq<Kind>)
    requires AtSuffix(c, m, reg, -1, n, total) && |n| == 1 && LoopAt(c, -1, n, total).ret >= 0
    ensures var r := LoopAt(c, -1, n, total);
            && Wrote(c, m, c.ptr - 1, r.c, m', [], Resolve(c.dict[..|reg|], reg, n)) && r.ret == total + (r.c.ptr - c.ptr)
            && 0 < r.c.data[c.ptr - 1] < 64
  {
    hide NameAt, Hash, Join, Fits, Resolve, DictHash, EncodeLoop, Finish, Write;
    var p, D, l := c.ptr - 1, c.dict[..|reg|], n[0];
    assert IsLabel(l);
    JoinHead(n);
    assert Join(n) == l + [];
    CopiesLabel(c, p, 0, l, [], total);
    LoopEnds(c.(data := Write(c.data, c.ptr, l), ptr := c.ptr + |l|), p, |l|, total + |l|);
    m' := LastLabelWritten(c, m, l, total);
    ResolveStep(D, reg, n);
    ResolveNil(D, reg);
    assert n[1..] == [] && [l] + [] == [l];
  }

  /** The iterations that write the first of several labels and reach the next length byte. */
  lemma LoopStep(c: Ctx, n: Name, total: nat)
    requires 0 < c.ptr && |n| > 1 && IsLabel(n[0]) && total > 0 && (total > 1 || Left(c) > 1)
    requires LoopAt(c, -1, n, total).ret >= 0
    ensures c.ptr + |n[0]| + 1 < |c.data|
    ensures var found := Lookup(After(c, n[0]), Join(n[1..]));
            LoopAt(c, -1, n, total) == LoopAt(found.c, found.ret, n[1..], total + |n[0]| + 1)
  {
    hide Join, EncodeLoop, Write, Lookup, PutLabel;
    var p, l := c.ptr - 1, n[0];
    var tail := [DOT] + Join(n[1..]);
    JoinHead(n);
    CopiesLabel(c, p, 0, l, tail, total);
    var c1 := c.(data := Write(c.data, c.ptr, l), ptr := c.ptr + |l|);
    LoopGoesOn(c1, p, |l|, -1, tail, total + |l|);
    LoopDot(c1, p, |l|, Join(n[1..]), total + |l|);
    PutLabelIs(c.data, p, l);
  }

  lemma {:induction false} EncodesSuffix(c: Ctx, m: seq<Kind>, reg: seq<Name>, offset: int, n: Name, total: nat)
    returns (m': seq<Kind>, more: seq<Name>)
    requires AtSuffix(c, m, reg, offset, n, total) && LoopAt(c, offset, n, total).ret >= 0
    ensures var r := LoopAt(c, offset, n, total);
            && Wrote(c, m, c.ptr - 1, r.c, m', more, Resolve(c.dict[..|reg|], reg, n))
            && r.ret == total + (r.c.ptr - c.ptr) && (offset < 0 ==> 0 < r.c.data[c.ptr - 1] < 64)
            && (Resolve(c.dict[..|reg|], reg, n) == n ==> Own(r.c.dict[|c.dict|..], more, n))
    decreases |n|
  {
    hide NameAt, Hash, Fits, Own, Resolve, LoopAt, MarkLabel, PutLabel, FreeFrom, Entries, Cursor;
    if offset >= 0 {
      m' := SuffixByPointer(c, m, reg, offset, n, total);
      more := [];
      OwnNone(LoopAt(c, offset, n, total).c.dict[|c.dict|..], n);
    } else if |n| == 1 {
      m' := SuffixLast(c, m, reg, n, total);
      more := [];
      OwnNone(LoopAt(c, offset, n, total).c.dict[|c.dict|..], n);
    } else {
      var D := c.dict[..|reg|];
      assert IsLabel(n[0]);
      LoopStep(c, n, total);
      var c3, offset3 := AtNextSuffix(c, m, reg, n, total);
      var more3;
      m', more3 := EncodesSuffix(c3, MarkLabel(m, c.ptr - 1, |n[0]|), reg, offset3, n[1..], total + |n[0]| + 1);
      ResolveNonEmpty(D, reg, n[1..]);
      var r := LoopAt(c, offset, n, total).c;
      more := LabelThenRest(c, m, n[0], c3, r, m', more3, Resolve(D, reg, n[1..]));
      TailResolved(n, Resolve(D, reg, n[1..]));
      if Resolve(D, reg, n) == n {
        OwnGrows(c.dict, c3.dict, r.dict, more3, n);
      }
    }
  }

  lemma TailResolved(n: Name, rest: Name)
    requires n != []
    ensures [n[0]] + rest == n ==> rest == n[1..]
  {
    assert ([n[0]] + rest)[1..] == rest;
  }

  lemma OwnNone(dict: seq<DictItem>, n: Name)
    requires dict == []
    ensures Own(dict, [], n)
  {
  }

  lemma OwnGrows(old': seq<DictItem>, dict3: seq<DictItem>, dict: seq<DictItem>, more: seq<Name>, n: Name)
    requires |n| > 1 && dict3 <= dict && Own(dict[|dict3|..], more, n[1..])
    requires dict3 == old' || (|dict3| == |old'| + 1 && old' <= dict3 && dict3[|old'|].hash == Hash(n[1..]))
    ensures Own(dict[|old'|..], if dict3 == old' then more else [n[1..]] + more, n)
  {
    hide Hash;
    forall i | 0 <= i < |more| ensures IsSuffix(more[i], n) {
      assert IsSuffix(more[i], n[1..]);
      assert n[1..][|n| - 1 - |more[i]|..] == n[|n| - |more[i]|..];
    }
    if dict3 != old' {
      assert dict[|old'|] == dict3[|old'|];
      assert dict[|old'|..] == [dict[|old'|]] + dict[|dict3|..];
      assert IsSuffix(n[1..], n);
    }
  }

  lemma EntryBelow(b: seq<byte>, m: seq<Kind>, p: nat, item: DictItem, n: Name)
    requires Entry(b, m, item, n) && n != [] && FreeFrom(m, p) && |m| == |b|
    ensures item.pos < p
  {
    NameMarked(b, m, item.pos, n);
  }

  lemma JoinHead(n: Name)
    requires n != []
    ensures Join(n) == n[0] + (if |n| == 1 then [] else [DOT] + Join(n[1..]))
  {
  }

  lemma LoopEnds(c: Ctx, lenPos: nat, num: nat, total: nat)
    requires lenPos < c.ptr
    ensures EncodeLoop(c, lenPos, num, -1, [], total) == Finish(c, lenPos, num, total)
  {
  }

  lemma ResolveNil(dict: seq<DictItem>, reg: seq<Name>)
    requires |dict| == |reg|
    ensures Resolve(dict, reg, []) == []
  {
  }

  lemma PutLabelIs(b: seq<byte>, p: nat, l: Text)
    requires p + 1 + |l| <= |b| && IsLabel(l)
    ensures PutLabel(b, p, l) == Write(b, p + 1, l)[p := |l|]
  {
  }
}
