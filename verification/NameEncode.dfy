/**
 * Writing a domain name with suffix compression (src/dns.c, dict_hash, _dns_add_domain_dict,
 * _dns_get_domain_offset, _dns_encode_domain).
 *
 * Ctx is a dns_context: `data` holds the maxsize bytes of the buffer, `ptr` the cursor and `dict`
 * the suffix dictionary. EncodeName and the functions below it follow the code character by
 * character for every C string.
 */
module NameEncode {
  import opened Bytes
  import opened NameDecode

  const DICT_SIZE: nat := 16

  datatype DictItem = DictItem(hash: nat, pos: nat)
  datatype Ctx = Ctx(data: seq<byte>, ptr: nat, dict: seq<DictItem>)

  /** A context together with the C return value of the call that produced it. */
  datatype Enc = Enc(c: Ctx, ret: int)

  function Left(c: Ctx): int {
    |c.data| - c.ptr
  }

  /** dict_hash: `char` is signed and the accumulator wraps at 32 bits. */
  function DictHash(s: Text): nat {
    if s == [] then 0
    else
      var last := s[|s| - 1] as int;
      ((if last < 128 then last else last - 256) + 31 * DictHash(s[..|s| - 1])) % 0x1_0000_0000
  }

  /** The index the dictionary scan stops at, |dict| when no hash is equal. */
  function FindHash(dict: seq<DictItem>, hash: nat): (i: nat)
    ensures i <= |dict|
    ensures i < |dict| ==> dict[i].hash == hash
    ensures forall j :: 0 <= j < i ==> dict[j].hash != hash
  {
    if dict == [] then 0
    else if dict[0].hash == hash then 0
    else 1 + FindHash(dict[1..], hash)
  }

  function AddDict(c: Ctx, hash: nat, pos: nat): (r: Ctx)
    ensures r.data == c.data && r.ptr == c.ptr && c.dict <= r.dict
  {
    if |c.dict| >= DICT_SIZE || hash == 0 || pos >= |c.data| then c
    else c.(dict := c.dict + [DictItem(hash, pos % 0x1_0000)])
  }

  /** _dns_get_domain_offset: the position to point at, or -1 and possibly a new dictionary entry. */
  function Lookup(c: Ctx, name: Text): (r: Enc)
    requires c.ptr > 0
    ensures r.c.data == c.data && r.c.ptr == c.ptr && c.dict <= r.c.dict
  {
    if name == [] then Enc(c, -1)
    else
      var hash := DictHash(name);
      var i := FindHash(c.dict, hash);
      if i == |c.dict| then Enc(AddDict(c, hash, c.ptr - 1), -1)
      else if Expand(c.data, c.dict[i].pos, [], MAX_CNAME_LEN, 0).None? then Enc(c, -1)
      else Enc(c, c.dict[i].pos)
  }

  /** A pointer in place of the length byte at lenPos; the second byte is the cursor's. */
  function EmitPointer(c: Ctx, lenPos: nat, offset: nat): Ctx
    requires lenPos < c.ptr && Left(c) > 1
  {
    c.(data := Write(c.data, lenPos, ShortBytes(0xC000 + offset % 0x4000)), ptr := c.ptr + 1)
  }

  /** What follows the loop: the last length, and the root label unless nothing was written. */
  function Finish(c: Ctx, lenPos: nat, num: nat, total: nat): Enc
    requires lenPos < c.ptr
  {
    if Left(c) < 1 then Enc(c, -1)
    else
      var c1 := c.(data := c.data[lenPos := num % 256]);
      var done := if total > 1 then Enc(c1.(data := c1.data[c.ptr := 0], ptr := c.ptr + 1), total + 1) else Enc(c1, total);
      if Left(done.c) <= 0 then Enc(done.c, -1) else done
  }

  /** The loop of _dns_encode_domain; lenPos is ptr_num. */
  function EncodeLoop(c: Ctx, lenPos: nat, num: nat, offset: int, name: Text, total: nat): (r: Enc)
    requires lenPos < c.ptr
    ensures |r.c.data| == |c.data| && r.c.ptr >= c.ptr && (r.ret >= 0 ==> r.c.ptr < |c.data|)
    decreases |name|
  {
    if Left(c) <= 1 || name == [] then Finish(c, lenPos, num, total)
    else if offset >= 0 then Enc(EmitPointer(c, lenPos, offset), total + 1)
    else if name[0] == DOT then
      var found := Lookup(c.(data := c.data[lenPos := num % 256], ptr := c.ptr + 1), name[1..]);
      EncodeLoop(found.c, c.ptr, 0, found.ret, name[1..], total + 1)
    else
      EncodeLoop(c.(data := c.data[c.ptr := name[0]], ptr := c.ptr + 1), lenPos, num + 1, offset, name[1..], total + 1)
  }

  /** _dns_encode_domain. */
  function EncodeName(c: Ctx, name: Text): (r: Enc)
    ensures |r.c.data| == |c.data| && r.c.ptr > c.ptr && (r.ret >= 0 ==> r.c.ptr < |c.data|)
  {
    var found := Lookup(c.(ptr := c.ptr + 1), name);
    EncodeLoop(found.c, c.ptr, 0, found.ret, name, 1)
  }

  // ---- What a written name looks like ----

  /** Labels of 1..63 bytes without dot or NUL. */
  type Name = seq<Text>

  predicate IsLabel(l: Text) {
    0 < |l| < 64 && forall i :: 0 <= i < |l| ==> l[i] != DOT && l[i] != 0
  }

  predicate WellFormed(n: Name) {
    forall i :: 0 <= i < |n| ==> IsLabel(n[i])
  }

  function Join(n: Name): Text {
    if n == [] then [] else if |n| == 1 then n[0] else n[0] + [DOT] + Join(n[1..])
  }

  /** The role of a byte in a buffer: no part of a name, length byte or pointer, label text. */
  datatype Kind = Free | Length | Char

  /**
   * The labels n are spelled at p: literal labels closed by a root label or by a pointer to the
   * start of a label further down. m gives the role of every byte.
   */
  ghost predicate NameAt(b: seq<byte>, m: seq<Kind>, p: nat, n: Name)
    decreases |n|, p
  {
    && p < |b| == |m| && m[p] == Length
    && if n == [] then b[p] == 0
       else if b[p] >= 0xC0 then
         p + 2 <= |b| && m[p + 1] == Length && PointsDown(b, p) && NameAt(b, m, Target(b, p), n)
       else
         LabelAt(b, m, p, n[0]) && NameAt(b, m, p + 1 + |n[0]|, n[1..])
  }

  ghost predicate LabelAt(b: seq<byte>, m: seq<Kind>, p: nat, l: Text)
    requires p < |b| == |m|
  {
    && b[p] == |l| && IsLabel(l) && p + 1 + |l| < |b| && b[p + 1..p + 1 + |l|] == l
    && forall i :: p < i <= p + |l| ==> m[i] == Char
  }

  ghost predicate PointsDown(b: seq<byte>, p: nat)
    requires p + 2 <= |b|
  {
    Target(b, p) < p && 0 < b[Target(b, p)] < 64
  }

  predicate InName(k: Kind) {
    k == Length || k == Char
  }

  /** The bytes of names in b are in b' too, and in the same role. */
  ghost predicate Keeps(b: seq<byte>, m: seq<Kind>, b': seq<byte>, m': seq<Kind>) {
    |b| == |m| && |b'| == |m'| &&
    forall i :: 0 <= i < |m| && InName(m[i]) ==> i < |b'| && b'[i] == b[i] && m'[i] == m[i]
  }

  lemma LabelKept(b: seq<byte>, m: seq<Kind>, b': seq<byte>, m': seq<Kind>, p: nat, l: Text)
    requires Keeps(b, m, b', m') && p < |b| && m[p] == Length && LabelAt(b, m, p, l) && p + 1 + |l| < |b'|
    ensures LabelAt(b', m', p, l)
  {
    forall i | p < i <= p + |l| ensures b'[i] == b[i] && m'[i] == Char {
      assert InName(m[i]);
    }
    assert b'[p + 1..p + 1 + |l|] == b[p + 1..p + 1 + |l|];
    assert InName(m[p]);
  }

  lemma {:induction false} NameKept(b: seq<byte>, m: seq<Kind>, b': seq<byte>, m': seq<Kind>, p: nat, n: Name)
    requires NameAt(b, m, p, n) && Keeps(b, m, b', m')
    ensures NameAt(b', m', p, n) && Cursor(b', p) == Cursor(b, p) && b'[p] == b[p]
    decreases |n|, p
  {
    assert InName(m[p]);
    if n != [] {
      if b[p] >= 0xC0 {
        assert InName(m[p + 1]);
        var t := Target(b, p);
        assert Target(b', p) == t;
        NameKept(b, m, b', m', t, n);
      } else {
        var q := p + 1 + |n[0]|;
        NameKept(b, m, b', m', q, n[1..]);
        LabelKept(b, m, b', m', p, n[0]);
        assert Cursor(b, p) == Cursor(b, q) && Cursor(b', p) == Cursor(b', q);
      }
    }
  }

  /** Text of n behind `out`, as the decoder accumulates it. */
  function JoinOnto(out: Text, n: Name): Text {
    if n == [] then out else Dotted(out) + Join(n)
  }

  lemma JoinOntoStep(out: Text, n: Name)
    requires n != [] && n[0] != []
    ensures JoinOnto(Dotted(out) + n[0], n[1..]) == JoinOnto(out, n)
    ensures |out| <= |Dotted(out) + n[0]| <= |JoinOnto(out, n)|
  {
    if |n| > 1 {
      assert Dotted(out) + n[0] + [DOT] + Join(n[1..]) == Dotted(out) + (n[0] + [DOT] + Join(n[1..]));
    }
  }

  lemma ExpandLabel(b: seq<byte>, m: seq<Kind>, p: nat, l: Text, out: Text, size: nat, jump: nat)
    requires p < |b| == |m| && LabelAt(b, m, p, l) && |out| < size - 1 && jump <= MAX_JUMPS
    ensures Expand(b, p, out, size, jump)
            == if |Dotted(out) + l| < size - 1 then Expand(b, p + 1 + |l|, Dotted(out) + l, size, 0) else None
  {
    assert Grown(b, p, out) == Dotted(out) + l;
  }

  lemma ExpandRoot(b: seq<byte>, p: nat, out: Text, size: nat, jump: nat)
    requires p < |b| && b[p] == 0 && jump <= MAX_JUMPS
    ensures Expand(b, p, out, size, jump) == if |out| < size - 1 then Some(out) else None
  {
  }

  lemma ExpandPointer(b: seq<byte>, p: nat, out: Text, size: nat, jump: nat)
    requires p + 2 <= |b| && b[p] >= 0xC0 && |out| < size - 1 && jump <= MAX_JUMPS
    ensures Expand(b, p, out, size, jump) == Expand(b, Target(b, p), out, size, jump + 1)
  {
  }

  lemma LabelNonEmpty(b: seq<byte>, m: seq<Kind>, p: nat, l: Text)
    requires p < |b| == |m| && LabelAt(b, m, p, l)
    ensures l != []
  {
  }

  /** A spelled name decodes to its text exactly when the text fits the output. */
  lemma {:induction false} NameDecodes(b: seq<byte>, m: seq<Kind>, p: nat, n: Name, out: Text, size: nat, jump: nat)
    requires NameAt(b, m, p, n) && |out| < size - 1
    requires jump < MAX_JUMPS || (jump == MAX_JUMPS && b[p] < 64)
    ensures Expand(b, p, out, size, jump) == if |JoinOnto(out, n)| < size - 1 then Some(JoinOnto(out, n)) else None
    decreases |n|, p
  {
    hide Join, Expand, Grown, LabelAt;
    if n == [] {
      ExpandRoot(b, p, out, size, jump);
    } else if b[p] >= 0xC0 {
      ExpandPointer(b, p, out, size, jump);
      NameDecodes(b, m, Target(b, p), n, out, size, jump + 1);
    } else {
      LabelNonEmpty(b, m, p, n[0]);
      JoinOntoStep(out, n);
      ExpandLabel(b, m, p, n[0], out, size, jump);
      if |Dotted(out) + n[0]| < size - 1 {
        NameDecodes(b, m, p + 1 + |n[0]|, n[1..], Dotted(out) + n[0], size, 0);
      }
    }
  }
}
