/**
 * SVCB and HTTPS parameters (src/dns.c): the padded store inside a packet, its iteration, and the wire
 * form of section 2.2 of RFC 9460. Alignment is that of addresses, so it depends on where the record
 * happens to lie; base is the address of the buffer modulo 2.
 */
module Svcb {
  import opened Bytes
  import opened NameDecode
  import opened NameEncode
  import opened NameRoundTrip
  import opened NameTheorems
  import opened Message
  import opened Layout
  import opened MessageLayout

  datatype Param = Param(key: nat, value: seq<byte>)

  predicate ParamOk(q: Param) {
    q.key < 0x1_0000 && |q.value| < 0x1_0000
  }

  /** mandatory, alpn, no-default-alpn, port, ipv4hint, ech and ipv6hint. */
  predicate KnownKey(key: nat) {
    key <= 6
  }

  predicate ParamsOk(qs: seq<Param>) {
    forall i :: 0 <= i < |qs| ==> ParamOk(qs[i]) && KnownKey(qs[i].key)
  }

  // ---- The store ----

  /** A 16-bit value in host order. */
  function Native(v: nat): (s: seq<byte>)
    ensures |s| == 2
  {
    [v % 256, v / 256 % 256]
  }

  function ReadNative(b: seq<byte>, p: nat): nat
    requires p + 2 <= |b|
  {
    b[p] as int + b[p + 1] as int * 256
  }

  predicate Aligned(base: nat, p: nat) {
    (base + p) % 2 == 0
  }

  /** The buffer and the write pointer. */
  datatype Nest = Nest(b: seq<byte>, p: nat)

  function Room(n: Nest): int {
    |n.b| - n.p
  }

  function Laid(n: Nest, s: seq<byte>): Nest
    requires |s| <= Room(n)
  {
    Nest(Write(n.b, n.p, s), n.p + |s|)
  }

  /** dns_add_rr_nested_memcpy: what it leaves behind, and whether it succeeded. */
  function Copied(n: Nest, base: nat, s: seq<byte>): (Nest, bool) {
    if s == [] || Room(n) < |s| || !Aligned(base, n.p) then (n, false)
    else
      var n1 := Laid(n, s);
      if Aligned(base, n1.p) then (n1, true) else if Room(n1) < 1 then (n1, false) else (Laid(n1, [0]), true)
  }

  /** dns_SVCB_add_raw. */
  function AddedRaw(n: Nest, base: nat, q: Param): (Nest, bool) {
    if Room(n) < 2 + |q.value| then (n, false)
    else
      var (n1, ok1) := Copied(n, base, Native(q.key));
      if !ok1 then (n1, false)
      else
        var (n2, ok2) := Copied(n1, base, Native(|q.value|));
        if !ok2 then (n2, false) else Copied(n2, base, q.value)
  }

  /** dns_SVCB_add_no_default_alpn. */
  function AddedNoAlpn(n: Nest, base: nat): (Nest, bool) {
    if Room(n) < 4 then (n, false)
    else
      var (n1, ok1) := Copied(n, base, Native(2));
      if !ok1 then (n1, false) else Copied(n1, base, Native(0))
  }

  function Pad(len: nat): seq<byte> {
    if len % 2 == 0 then [] else [0]
  }

  /** A parameter as the store holds it. */
  function Block(q: Param): (s: seq<byte>)
    ensures |s| == 4 + |q.value| + |q.value| % 2
  {
    Native(q.key) + Native(|q.value|) + q.value + Pad(|q.value|)
  }

  lemma TwoWrites(n: Nest, s: seq<byte>, t: seq<byte>)
    requires |s| + |t| <= Room(n)
    ensures Laid(Laid(n, s), t) == Laid(n, s + t)
  {
    assert Write(Write(n.b, n.p, s), n.p + |s|, t) == Write(n.b, n.p, s + t);
  }

  lemma CopyIs(n: Nest, base: nat, s: seq<byte>)
    requires Aligned(base, n.p)
    ensures s != [] && |s| + |s| % 2 <= Room(n) ==> Copied(n, base, s) == (Laid(n, s + Pad(|s|)), true)
    ensures s == [] || |s| + |s| % 2 > Room(n) ==> !Copied(n, base, s).1
    ensures s == [] ==> Copied(n, base, s).0 == n
  {
    hide Laid;
    if s != [] && |s| <= Room(n) {
      LaidMoves(n, s);
    }
    if s != [] && |s| + |s| % 2 <= Room(n) {
      if |s| % 2 == 1 {
        TwoWrites(n, s, [0]);
      } else {
        assert s + [] == s;
      }
    }
  }

  /**
   * An aligned parameter is stored as its block exactly when the block fits. The call then reports
   * success unless the value is empty, and in that case the block is stored all the same.
   */
  lemma AddedIs(n: Nest, base: nat, q: Param)
    requires Aligned(base, n.p)
    ensures |Block(q)| <= Room(n) ==> AddedRaw(n, base, q) == (Laid(n, Block(q)), q.value != [])
    ensures |Block(q)| > Room(n) ==> !AddedRaw(n, base, q).1
  {
    hide Laid, Copied, Native;
    CopyIs(n, base, Native(q.key));
    assert Native(q.key) + Pad(2) == Native(q.key) && Native(|q.value|) + Pad(2) == Native(|q.value|);
    if Room(n) >= 2 {
      LaidMoves(n, Native(q.key));
      CopyIs(Laid(n, Native(q.key)), base, Native(|q.value|));
    }
    if Room(n) >= 4 {
      var n1 := Laid(n, Native(q.key));
      var n2 := Laid(n1, Native(|q.value|));
      LaidMoves(n1, Native(|q.value|));
      CopyIs(n2, base, q.value);
      TwoWrites(n, Native(q.key), Native(|q.value|));
      var head := Native(q.key) + Native(|q.value|);
      if |Block(q)| <= Room(n) {
        TwoWrites(n, head, q.value + Pad(|q.value|));
        assert head + (q.value + Pad(|q.value|)) == Block(q);
        if q.value == [] {
          assert Block(q) == head;
        }
      }
    }
  }

  lemma LaidMoves(n: Nest, s: seq<byte>)
    requires |s| <= Room(n)
    ensures Laid(n, s).p == n.p + |s| && Room(Laid(n, s)) == Room(n) - |s|
  {
  }

  /** no-default-alpn is stored like any other parameter with an empty value. */
  lemma NoAlpnIs(n: Nest, base: nat)
    requires Aligned(base, n.p)
    ensures 4 <= Room(n) ==> AddedNoAlpn(n, base) == (Laid(n, Block(Param(2, []))), true)
    ensures 4 > Room(n) ==> !AddedNoAlpn(n, base).1
  {
    hide Laid, Copied, Native;
    assert Native(2) + Pad(2) == Native(2) && Native(0) + Pad(2) == Native(0);
    if Room(n) >= 4 {
      CopyIs(n, base, Native(2));
      LaidMoves(n, Native(2));
      CopyIs(Laid(n, Native(2)), base, Native(0));
      TwoWrites(n, Native(2), Native(0));
      assert Block(Param(2, [])) == Native(2) + Native(0);
    }
  }

  function Blocks(qs: seq<Param>): seq<byte> {
    if qs == [] then [] else Block(qs[0]) + Blocks(qs[1..])
  }

  /** Each parameter added in turn, with whatever the calls report. */
  function AddedAll(n: Nest, base: nat, qs: seq<Param>): Nest
    decreases |qs|
  {
    if qs == [] then n else AddedAll(AddedRaw(n, base, qs[0]).0, base, qs[1..])
  }

  lemma {:induction false} AddedAllIs(n: Nest, base: nat, qs: seq<Param>)
    requires Aligned(base, n.p) && |Blocks(qs)| <= Room(n)
    ensures AddedAll(n, base, qs) == Laid(n, Blocks(qs))
    decreases |qs|
  {
    hide Laid, AddedRaw, Block;
    if qs == [] {
      LaidNothing(n);
    } else {
      AddedIs(n, base, qs[0]);
      LaidMoves(n, Block(qs[0]));
      AddedAllIs(Laid(n, Block(qs[0])), base, qs[1..]);
      TwoWrites(n, Block(qs[0]), Blocks(qs[1..]));
    }
  }

  lemma LaidNothing(n: Nest)
    requires n.p <= |n.b|
    ensures Laid(n, []) == n
  {
    assert Write(n.b, n.p, []) == n.b;
  }

  // ---- Iteration ----

  /** dns_svcparm_next from the parameter at p, over a record that ends at end. */
  function ParamsFrom(b: seq<byte>, base: nat, p: nat, end: nat): seq<Param>
    decreases end - p
  {
    if p + 4 > |b| || p + 4 + ReadNative(b, p + 2) > |b| then []
    else
      var len := ReadNative(b, p + 2);
      var next := p + 4 + len + (if Aligned(base, p + 4 + len) then 0 else 1);
      [Param(ReadNative(b, p), b[p + 4..p + 4 + len])] + (if next >= end then [] else ParamsFrom(b, base, next, end))
  }

  lemma ParamsStep(b: seq<byte>, base: nat, p: nat, end: nat)
    ensures var r := ParamsFrom(b, base, p, end);
            if p + 4 > |b| || p + 4 + ReadNative(b, p + 2) > |b| then r == []
            else
              var len := ReadNative(b, p + 2);
              var next := p + 4 + len + (if Aligned(base, p + 4 + len) then 0 else 1);
              && r != [] && r == [Param(ReadNative(b, p), b[p + 4..p + 4 + len])] + r[1..]
              && r[1..] == if next >= end then [] else ParamsFrom(b, base, next, end)
  {
    hide ReadNative;
  }

  lemma NativeReads(b: seq<byte>, p: nat, v: nat)
    requires p + 2 <= |b| && b[p..p + 2] == Native(v) && v < 0x1_0000
    ensures ReadNative(b, p) == v
  {
    assert b[p] == b[p..p + 2][0] && b[p + 1] == b[p..p + 2][1];
  }

  lemma BlockReads(b: seq<byte>, p: nat, q: Param)
    requires FieldIs(b, p, Block(q)) && ParamOk(q)
    ensures p + 4 + |q.value| <= |b| && ReadNative(b, p) == q.key && ReadNative(b, p + 2) == |q.value|
    ensures b[p + 4..p + 4 + |q.value|] == q.value
  {
    hide ReadNative, Native, Pad;
    var s := Block(q);
    SubField(b, p, s, 0, 2);
    SubField(b, p, s, 2, 4);
    SubField(b, p, s, 4, 4 + |q.value|);
    assert s[0..2] == Native(q.key) && s[2..4] == Native(|q.value|) && s[4..4 + |q.value|] == q.value;
    NativeReads(b, p, q.key);
    NativeReads(b, p + 2, |q.value|);
  }

  /** Iterating the store gives the parameters in the order they were added, whatever the alignment. */
  lemma {:induction false} StoreIterates(b: seq<byte>, base: nat, p: nat, qs: seq<Param>)
    requires qs != [] && FieldIs(b, p, Blocks(qs)) && Aligned(base, p) && forall i :: 0 <= i < |qs| ==> ParamOk(qs[i])
    ensures ParamsFrom(b, base, p, p + |Blocks(qs)|) == qs
    decreases |qs|
  {
    hide Block, ReadNative, ParamsFrom, FieldIs;
    var q, rest := qs[0], qs[1..];
    BlockSize(q);
    HeadField(b, p, Block(q), Blocks(rest));
    BlockReads(b, p, q);
    ParamsStep(b, base, p, p + |Blocks(qs)|);
    assert qs == [q] + rest;
    if rest == [] {
      assert Blocks(rest) == [];
    } else {
      StoreIterates(b, base, p + |Block(q)|, rest);
      BlocksLonger(rest);
    }
  }

  lemma BlocksLonger(qs: seq<Param>)
    requires qs != []
    ensures |Blocks(qs)| >= 4
  {
  }

  // ---- Priority and target ----

  const NUL: byte := 0

  /** dns_add_*_start stores a missing target, or one that begins with a dot, as the empty string. */
  function StoredTarget(target: Text): Text {
    if target == [] || target[0] == DOT then [] else target
  }

  /** _dns_add_SVCB_HTTPS_start, behind the record head. */
  function AddedStart(n: Nest, base: nat, priority: nat, target: Text): Option<Nest> {
    var s := ShortBytes(priority) + StoredTarget(target) + [NUL];
    if Room(n) < |s| then None
    else
      var n1 := Laid(n, s);
      if Aligned(base, n1.p) then Some(n1) else if Room(n1) < 1 then None else Some(Laid(n1, [NUL]))
  }

  /** strnlen. */
  function TextLength(b: seq<byte>, p: nat, max: nat): (n: nat)
    ensures n <= max && (n == 0 || p + n <= |b|)
    decreases max
  {
    if max == 0 || p >= |b| || b[p] == NUL then 0 else 1 + TextLength(b, p + 1, max - 1)
  }

  lemma {:induction false} TextLengthIs(b: seq<byte>, p: nat, max: nat, t: Text)
    requires FieldIs(b, p, t + [NUL]) && NoNul(t) && |t| < max
    ensures TextLength(b, p, max) == |t|
    decreases |t|
  {
    assert b[p] == b[p..p + |t| + 1][0];
    if t != [] {
      assert b[p + 1..p + 1 + |t|] == (t + [NUL])[1..] by { SubField(b, p, t + [NUL], 1, |t| + 1); }
      assert (t + [NUL])[1..] == t[1..] + [NUL];
      TextLengthIs(b, p + 1, max - 1, t[1..]);
    }
  }

  /**
   * dns_svcparm_start and all calls of dns_svcparm_next on the record data [p, end): priority, target
   * and parameters, or None when the data is too short.
   */
  function ReadRecord(b: seq<byte>, base: nat, p: nat, end: nat): Option<(nat, Text, seq<Param>)> {
    if end > |b| || end - p <= 2 then None
    else
      var q := p + 2;
      var len := TextLength(b, q, end - q);
      if q + len + 1 > end then None
      else
        var r := q + len + 1 + (if Aligned(base, q + len + 1) then 0 else 1);
        Some((Short(b, p), b[q..q + len], if r == end then [] else ParamsFrom(b, base, r, end)))
  }

  predicate NoNul(t: Text) {
    forall i :: 0 <= i < |t| ==> t[i] != NUL
  }

  /** The whole record data: start, then every parameter. */
  function AddedRecord(n: Nest, base: nat, priority: nat, target: Text, qs: seq<Param>): Option<Nest> {
    match AddedStart(n, base, priority, target)
    case None => None
    case Some(n1) => if |Blocks(qs)| > Room(n1) then None else Some(AddedAll(n1, base, qs))
  }

  lemma StartIs(n: Nest, base: nat, priority: nat, target: Text)
    requires n.p <= |n.b| && AddedStart(n, base, priority, target).Some?
    ensures var t := StoredTarget(target);
            var e := n.p + 2 + |t| + 1;
            var pad := if Aligned(base, e) then [] else [NUL];
            var n1 := AddedStart(n, base, priority, target).value;
            && |pad| + e <= |n.b| && n1 == Laid(n, ShortBytes(priority) + t + [NUL] + pad) && Aligned(base, n1.p)
  {
    hide Laid, ShortBytes;
    var s := ShortBytes(priority) + StoredTarget(target) + [NUL];
    LaidMoves(n, s);
    if Aligned(base, n.p + |s|) {
      assert s + [] == s;
    } else {
      TwoWrites(n, s, [NUL]);
      LaidMoves(n, s + [NUL]);
    }
  }

  lemma LaidField(n: Nest, s: seq<byte>)
    requires |s| <= Room(n)
    ensures FieldIs(Laid(n, s).b, n.p, s) && |Laid(n, s).b| == |n.b|
  {
  }

  /**
   * The padded store: iterating a record gives priority, target and parameters as they were added,
   * whatever the parity of the place, of the target and of the values.
   */
  lemma RecordReads(n: Nest, base: nat, priority: nat, target: Text, qs: seq<Param>)
    requires n.p <= |n.b| && priority < 0x1_0000 && NoNul(target) && (forall i :: 0 <= i < |qs| ==> ParamOk(qs[i]))
    requires AddedRecord(n, base, priority, target, qs).Some?
    ensures var n' := AddedRecord(n, base, priority, target, qs).value;
            && n.p <= n'.p <= |n'.b| && ReadRecord(n'.b, base, n.p, n'.p) == Some((priority, StoredTarget(target), qs))
  {
    hide Laid, ShortBytes, Short, Blocks, AddedAll, AddedStart, FieldIs, ParamsFrom, TextLength;
    var t := StoredTarget(target);
    var e := n.p + 2 + |t| + 1;
    var pad := if Aligned(base, e) then [] else [NUL];
    StartIs(n, base, priority, target);
    var n1 := AddedStart(n, base, priority, target).value;
    AddedAllIs(n1, base, qs);
    var start := ShortBytes(priority) + t + [NUL] + pad;
    LaidMoves(n, start);
    TwoWrites(n, start, Blocks(qs));
    var n' := Laid(n, start + Blocks(qs));
    LaidMoves(n, start + Blocks(qs));
    LaidField(n, start + Blocks(qs));
    HeadField(n'.b, n.p, start, Blocks(qs));
    StartReads(n'.b, n.p, priority, t, pad);
    TextLengthIs(n'.b, n.p + 2, n'.p - (n.p + 2), t);
    ParamsRead(n'.b, base, e + |pad|, qs);
  }

  /** Behind the target: nothing, or the parameters. */
  lemma ParamsRead(b: seq<byte>, base: nat, p: nat, qs: seq<Param>)
    requires FieldIs(b, p, Blocks(qs)) && Aligned(base, p) && (forall i :: 0 <= i < |qs| ==> ParamOk(qs[i]))
    ensures (if Blocks(qs) == [] then [] else ParamsFrom(b, base, p, p + |Blocks(qs)|)) == qs
  {
    hide Blocks, FieldIs, ParamsFrom;
    if qs == [] {
      NoBlocks();
    } else {
      StoreIterates(b, base, p, qs);
      BlocksLonger(qs);
    }
  }

  lemma NoBlocks()
    ensures Blocks([]) == []
  {
  }

  lemma StartReads(b: seq<byte>, p: nat, priority: nat, t: Text, pad: seq<byte>)
    requires FieldIs(b, p, ShortBytes(priority) + t + [NUL] + pad) && priority < 0x1_0000
    ensures p + 2 + |t| <= |b| && Short(b, p) == priority && FieldIs(b, p + 2, t + [NUL]) && b[p + 2..p + 2 + |t|] == t
  {
    hide ShortBytes, Short;
    var s := ShortBytes(priority) + t + [NUL] + pad;
    SubField(b, p, s, 0, 2);
    SubField(b, p, s, 2, 2 + |t| + 1);
    SubField(b, p, s, 2, 2 + |t|);
    assert s[0..2] == ShortBytes(priority) && s[2..2 + |t| + 1] == t + [NUL] && s[2..2 + |t|] == t;
    ShortAt(b, p, priority);
  }

  /** One parameter through the call made for it. */
  function Added(n: Nest, base: nat, q: Param): (Nest, bool) {
    if q == Param(2, []) then AddedNoAlpn(n, base) else AddedRaw(n, base, q)
  }

  predicate AddsOk(n: Nest, base: nat, qs: seq<Param>)
    decreases |qs|
  {
    qs == [] || (Added(n, base, qs[0]).1 && AddsOk(Added(n, base, qs[0]).0, base, qs[1..]))
  }

  /** The state the calls leave behind. */
  function AfterAdds(n: Nest, base: nat, qs: seq<Param>): Nest
    decreases |qs|
  {
    if qs == [] then n else AfterAdds(Added(n, base, qs[0]).0, base, qs[1..])
  }

  /** Calls that all report success have stored every block, one behind the other. */
  lemma {:induction false} AddsOkFit(n: Nest, base: nat, qs: seq<Param>)
    requires n.p <= |n.b| && Aligned(base, n.p) && AddsOk(n, base, qs)
    ensures |Blocks(qs)| <= Room(n) && AfterAdds(n, base, qs) == Laid(n, Blocks(qs)) == AddedAll(n, base, qs)
    decreases |qs|
  {
    hide Laid, AddedRaw, AddedNoAlpn, Block, AddedAll;
    if qs == [] {
      LaidNothing(n);
    } else {
      AddedIs(n, base, qs[0]);
      NoAlpnIs(n, base);
      BlockSize(qs[0]);
      LaidMoves(n, Block(qs[0]));
      AddsOkFit(Added(n, base, qs[0]).0, base, qs[1..]);
      TwoWrites(n, Block(qs[0]), Blocks(qs[1..]));
    }
    AddedAllIs(n, base, qs);
  }

  lemma BlockSize(q: Param)
    ensures |Block(q)| == 4 + |q.value| + |q.value| % 2
  {
  }

  // ---- The wire ----

  function WireParam(q: Param): (s: seq<byte>)
    ensures |s| == 4 + |q.value|
  {
    ShortBytes(q.key) + ShortBytes(|q.value|) + q.value
  }

  /** The loop of _dns_encode_svcparam: start is where it began, limit the stored record's length. */
  function EncodeParams(c: Ctx, qs: seq<Param>, start: nat, limit: nat): Option<Ctx>
    decreases |qs|
  {
    if qs == [] then Some(c)
    else if c.ptr - start > limit || Left(c) <= 0 || |qs[0].value| + 4 > Left(c) then None
    else EncodeParams(if KnownKey(qs[0].key) then Put(c, WireParam(qs[0])) else c, qs[1..], start, limit)
  }

  /** _dns_encode_svcparam, behind the record head. */
  function EncodeSvcb(c: Ctx, priority: nat, target: Text, qs: seq<Param>, limit: nat): Option<Ctx> {
    if Left(c) < 2 then None
    else
      var r := EncodeName(Put(c, ShortBytes(priority)), target);
      if r.ret < 0 then None
      else
        var d := EncodeParams(r.c, qs, r.c.ptr, limit);
        if d.None? || Left(d.value) < 2 then None else d
  }

  /** The loop of _dns_decode_SVCB_HTTPS; unknown keys are skipped. */
  function DecodeParams(b: seq<byte>, p: nat, end: nat): Option<seq<Param>>
    decreases end - p
  {
    if p >= end then Some([])
    else if p + 4 > |b| || p + 4 + Short(b, p + 2) > |b| then None
    else
      var len := Short(b, p + 2);
      var rest := DecodeParams(b, p + 4 + len, end);
      if rest.None? then None
      else if KnownKey(Short(b, p)) then Some([Param(Short(b, p), b[p + 4..p + 4 + len])] + rest.value)
      else rest
  }

  /** _dns_decode_SVCB_HTTPS on the record data [p, p + len). */
  function DecodeSvcb(b: seq<byte>, p: nat, len: nat): Option<(nat, Text, seq<Param>)> {
    if len < 2 || p + len > |b| then None
    else
      var h := DecodeHeadAt(b, p + 2, MAX_CNAME_LEN, 0);
      if h.None? then None
      else
        var qs := DecodeParams(b, h.value.1, p + len);
        if qs.None? then None else Some((Short(b, p), h.value.0, qs.value))
  }

  function Wire(qs: seq<Param>): seq<byte> {
    if qs == [] then [] else WireParam(qs[0]) + Wire(qs[1..])
  }

  lemma {:induction false} WireReads(b: seq<byte>, p: nat, qs: seq<Param>)
    requires FieldIs(b, p, Wire(qs)) && ParamsOk(qs)
    ensures DecodeParams(b, p, p + |Wire(qs)|) == Some(qs)
    decreases |qs|
  {
    hide WireParam, Short;
    if qs == [] {
      assert Wire(qs) == [];
    } else {
      var q, rest := qs[0], qs[1..];
      HeadField(b, p, WireParam(q), Wire(rest));
      WireParamReads(b, p, q);
      WireReads(b, p + |WireParam(q)|, rest);
      assert qs == [q] + rest;
    }
  }

  lemma WireParamReads(b: seq<byte>, p: nat, q: Param)
    requires FieldIs(b, p, WireParam(q)) && ParamOk(q)
    ensures p + 4 + |q.value| <= |b| && Short(b, p) == q.key && Short(b, p + 2) == |q.value| && b[p + 4..p + 4 + |q.value|] == q.value
  {
    hide ShortBytes, Short;
    var s := WireParam(q);
    SubField(b, p, s, 0, 2);
    SubField(b, p, s, 2, 4);
    SubField(b, p, s, 4, 4 + |q.value|);
    assert s[0..2] == ShortBytes(q.key) && s[2..4] == ShortBytes(|q.value|) && s[4..4 + |q.value|] == q.value;
    ShortAt(b, p, q.key);
    ShortAt(b, p + 2, |q.value|);
  }

  lemma TwoPuts(c: Ctx, s: seq<byte>, t: seq<byte>)
    requires |s| + |t| <= Left(c)
    ensures Put(Put(c, s), t) == Put(c, s + t)
  {
    assert Write(Write(c.data, c.ptr, s), c.ptr + |s|, t) == Write(c.data, c.ptr, s + t);
  }

  lemma PutNothing(c: Ctx)
    requires c.ptr <= |c.data|
    ensures Put(c, []) == c
  {
    assert Write(c.data, c.ptr, []) == c.data;
  }

  /** A successful loop has written the wire form of known parameters, nothing else. */
  lemma {:induction false} ParamsWritten(c: Ctx, qs: seq<Param>, start: nat, limit: nat)
    requires c.ptr <= |c.data| && ParamsOk(qs) && EncodeParams(c, qs, start, limit).Some?
    ensures |Wire(qs)| <= Left(c) && EncodeParams(c, qs, start, limit).value == Put(c, Wire(qs))
    decreases |qs|
  {
    hide Put, WireParam;
    if qs == [] {
      PutNothing(c);
    } else {
      ParamsWritten(Put(c, WireParam(qs[0])), qs[1..], start, limit);
      TwoPuts(c, WireParam(qs[0]), Wire(qs[1..]));
    }
  }

  /** The record data as it lies in a message. */
  ghost predicate SvcbAt(b: seq<byte>, m: seq<Kind>, p: nat, e: nat, priority: nat, target: Text, qs: seq<Param>) {
    var q := Cursor(b, p + 2);
    && e <= |b| == |m| && p + 2 <= q <= e && FieldIs(b, p, ShortBytes(priority)) && NameIs(b, m, p + 2, q, target)
    && FieldIs(b, q, Wire(qs)) && e == q + |Wire(qs)|
  }

  lemma SvcbReads(b: seq<byte>, m: seq<Kind>, p: nat, e: nat, priority: nat, target: Text, qs: seq<Param>)
    requires SvcbAt(b, m, p, e, priority, target, qs) && priority < 0x1_0000 && ParamsOk(qs)
    ensures DecodeSvcb(b, p, e - p) == if |target| < MAX_CNAME_LEN - 1 then Some((priority, target, qs)) else None
  {
    hide NameIs, Cursor, ShortBytes, Short, DecodeParams, Wire, DecodeHeadAt;
    var q := Cursor(b, p + 2);
    ShortAt(b, p, priority);
    HeadReads(b, m, p + 2, q, target, MAX_CNAME_LEN, 0);
    WireReads(b, q, qs);
  }

  /**
   * The wire round trip: whenever the data is encoded at all, decoding gives the same priority, target
   * and parameters, and fails exactly for targets too long to be read. A target is never cut by the
   * end of the buffer, because two bytes must be left in the end.
   */
  lemma SvcbRoundTrip(c: Ctx, m: seq<Kind>, reg: seq<Name>, priority: nat, target: Text, qs: seq<Param>, limit: nat, S: set<Name>)
    returns (m': seq<Kind>)
    requires Sound(c, m, reg, S) && HashTellsApart(S) && Known(target, S) && ParamsOk(qs) && priority < 0x1_0000
    requires EncodeSvcb(c, priority, target, qs, limit).Some?
    ensures var d := EncodeSvcb(c, priority, target, qs, limit).value;
            && Extends(c, m, d, m') && SvcbAt(d.data, m', c.ptr, d.ptr, priority, target, qs)
            && DecodeSvcb(d.data, c.ptr, d.ptr - c.ptr) == if |target| < MAX_CNAME_LEN - 1 then Some((priority, target, qs)) else None
  {
    hide EncodeName, NameIs, HashTellsApart, Truthful, Put, FieldIs, NoName, ShortBytes, Wire, Valid, FreeFrom, Cursor, EncodeParams, DecodeSvcb, Same;
    var s := ShortBytes(priority);
    var c1 := Put(c, s);
    PutWritten(c, m, reg, s, S);
    SoundIsLive(c1, m, reg, S);
    var m1, reg1 := NameWritten(c1, m, reg, target, S);
    var c2 := EncodeName(c1, target).c;
    ParamsWritten(c2, qs, c2.ptr, limit);
    var d := Put(c2, Wire(qs));
    PutMoves(c2, Wire(qs));
    PutWritten(c2, m1, reg1, Wire(qs), S);
    m' := m1;
    ExtendsTransitive(c, m, c1, m, c2, m1);
    ExtendsTransitive(c, m, c2, m1, d, m1);
    FieldKept(c1.data, m, c2.data, m1, 0, c1.ptr, c.ptr, s);
    FieldKept(c2.data, m1, d.data, m1, 0, c2.ptr, c.ptr, s);
    ExtendsKeeps(c2, m1, d, m1);
    NameIsKept(c2.data, m1, d.data, m1, c1.ptr, c2.ptr, target);
    CursorIs(d.data, m1, c1.ptr, c2.ptr, target);
    SvcbReads(d.data, m1, c.ptr, d.ptr, priority, target, qs);
  }

  lemma PutMoves(c: Ctx, s: seq<byte>)
    requires |s| <= Left(c)
    ensures Left(Put(c, s)) == Left(c) - |s|
  {
  }

  /** From one packet over the wire into another: iteration gives the same priority, target and parameters. */
  lemma SvcbEndToEnd(n: Nest, base: nat, a: Nest, c: Ctx, m: seq<Kind>, reg: seq<Name>, d: Ctx, n2: Nest, base2: nat, a2: Nest,
                     priority: nat, target: Text, qs: seq<Param>, limit: nat, r: (nat, Text, seq<Param>), S: set<Name>)
    requires n.p <= |n.b| && n2.p <= |n2.b| && Sound(c, m, reg, S) && HashTellsApart(S) && Known(target, S)
    requires priority < 0x1_0000 && ParamsOk(qs) && NoNul(target) && StoredTarget(target) == target
    requires AddedRecord(n, base, priority, target, qs) == Some(a)
    requires EncodeSvcb(c, priority, target, qs, limit) == Some(d) && c.ptr <= d.ptr
    requires DecodeSvcb(d.data, c.ptr, d.ptr - c.ptr) == Some(r)
    requires AddedRecord(n2, base2, r.0, r.1, r.2) == Some(a2)
    ensures r == (priority, target, qs)
    ensures ReadRecord(a.b, base, n.p, a.p) == Some(r) && ReadRecord(a2.b, base2, n2.p, a2.p) == Some(r)
  {
    hide AddedRecord, ReadRecord, EncodeSvcb, DecodeSvcb, SvcbAt, Sound, HashTellsApart, Known;
    var m' := SvcbRoundTrip(c, m, reg, priority, target, qs, limit, S);
    RecordReads(n, base, priority, target, qs);
    RecordReads(n2, base2, priority, target, qs);
  }

  // ---- The loops ----

  /** All parameters of a record, by dns_svcparm_next. */
  method WalkParams(b: seq<byte>, base: nat, p: nat, end: nat) returns (qs: seq<Param>)
    ensures qs == ParamsFrom(b, base, p, end)
  {
    hide ParamsFrom;
    qs := [];
    var q := p;
    while true
      invariant ParamsFrom(b, base, p, end) == qs + ParamsFrom(b, base, q, end)
      decreases end - q
    {
      ParamsStep(b, base, q, end);
      if q + 4 > |b| || q + 4 + ReadNative(b, q + 2) > |b| {
        break;
      }
      var len := ReadNative(b, q + 2);
      var x := Param(ReadNative(b, q), b[q + 4..q + 4 + len]);
      ghost var rest := ParamsFrom(b, base, q, end)[1..];
      assert qs + ([x] + rest) == qs + [x] + rest;
      qs := qs + [x];
      q := q + 4 + len;
      if !Aligned(base, q) {
        q := q + 1;
      }
      if q >= end {
        break;
      }
    }
  }

  /** The loop of _dns_decode_SVCB_HTTPS. */
  method ReadParams(b: seq<byte>, p: nat, end: nat) returns (r: Option<seq<Param>>)
    ensures r == DecodeParams(b, p, end)
  {
    var qs, q := [], p;
    BehindNothing(DecodeParams(b, p, end));
    while q < end
      invariant DecodeParams(b, p, end) == Behind(qs, DecodeParams(b, q, end))
      decreases end - q
    {
      if q + 4 > |b| || q + 4 + Short(b, q + 2) > |b| {
        return None;
      }
      var len := Short(b, q + 2);
      if KnownKey(Short(b, q)) {
        var x := Param(Short(b, q), b[q + 4..q + 4 + len]);
        BehindNext(qs, x, DecodeParams(b, q + 4 + len, end));
        qs := qs + [x];
      }
      q := q + 4 + len;
    }
    assert qs + [] == qs;
    r := Some(qs);
  }

  function Behind(qs: seq<Param>, r: Option<seq<Param>>): Option<seq<Param>> {
    if r.None? then None else Some(qs + r.value)
  }

  lemma BehindNothing(r: Option<seq<Param>>)
    ensures Behind([], r) == r
  {
    if r.Some? {
      assert [] + r.value == r.value;
    }
  }

  lemma BehindNext(qs: seq<Param>, x: Param, r: Option<seq<Param>>)
    ensures Behind(qs, Behind([x], r)) == Behind(qs + [x], r)
  {
    if r.Some? {
      assert qs + ([x] + r.value) == qs + [x] + r.value;
    }
  }

  /** A record under construction in a packet. */
  class Nested {
    const data: array<byte>
    const base: nat
    var ptr: nat

    ghost function N(): Nest
      reads this, data
    {
      Nest(data[..], ptr)
    }

    /** memcpy behind the pointer. */
    method Put(s: seq<byte>)
      requires ptr + |s| <= data.Length
      modifies this, data
      ensures N() == Laid(old(N()), s)
    {
      forall i | 0 <= i < |s| {
        data[ptr + i] := s[i];
      }
      ptr := ptr + |s|;
      assert data[..] == Write(old(data[..]), old(ptr), s);
    }

    /** dns_add_rr_nested_memcpy. */
    method Memcpy(s: seq<byte>) returns (ok: bool)
      modifies this, data
      ensures (N(), ok) == Copied(old(N()), base, s)
    {
      hide Laid;
      if s == [] || data.Length - ptr < |s| || (base + ptr) % 2 != 0 {
        return false;
      }
      ghost var n := N();
      LaidMoves(n, s);
      Put(s);
      if (base + ptr) % 2 != 0 {
        if data.Length - ptr < 1 {
          return false;
        }
        Put([0]);
      }
      ok := true;
    }

    /** dns_SVCB_add_raw. */
    method AddRaw(q: Param) returns (ok: bool)
      modifies this, data
      ensures (N(), ok) == AddedRaw(old(N()), base, q)
    {
      hide Copied;
      if data.Length - ptr < 2 + |q.value| {
        return false;
      }
      ok := Memcpy(Native(q.key));
      if !ok {
        return;
      }
      ok := Memcpy(Native(|q.value|));
      if !ok {
        return;
      }
      ok := Memcpy(q.value);
    }
  }
}
