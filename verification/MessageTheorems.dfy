/** dns_decode undoes dns_encode, and exactly when. */
module MessageTheorems {
  import opened Bytes
  import opened NameDecode
  import opened NameEncode
  import opened NameRoundTrip
  import opened NameTheorems
  import opened Message
  import opened Layout
  import opened MessageLayout

  predicate HeadOk(h: Head) {
    && h.id < 0x1_0000 && h.qr < 2 && h.opcode < 16 && h.aa < 2 && h.tc < 2 && h.rd < 2
    && h.ra < 2 && h.z < 2 && h.ad < 2 && h.cd < 2 && h.rcode < 16
  }

  function HeaderBytes(h: Head, counts: seq<byte>): seq<byte> {
    ShortBytes(h.id) + ShortBytes(Flags(h)) + counts
  }

  // ---- The bit-packed header ----

  lemma HighFlags(f: nat, h: Head, low: nat)
    requires HeadOk(h) && low < 0x100
    requires f == h.qr * 0x8000 + h.opcode * 0x800 + h.aa * 0x400 + h.tc * 0x200 + h.rd * 0x100 + low
    ensures f < 0x1_0000 && f / 0x8000 % 2 == h.qr && f / 0x800 % 16 == h.opcode
    ensures f / 0x400 % 2 == h.aa && f / 0x200 % 2 == h.tc && f / 0x100 % 2 == h.rd
  {
    assert f / 0x8000 == h.qr;
    assert f / 0x800 == h.qr * 16 + h.opcode;
    assert f / 0x400 == h.qr * 32 + h.opcode * 2 + h.aa;
    assert f / 0x200 == h.qr * 64 + h.opcode * 4 + h.aa * 2 + h.tc;
    assert f / 0x100 == h.qr * 128 + h.opcode * 8 + h.aa * 4 + h.tc * 2 + h.rd;
  }

  lemma LowFlags(f: nat, h: Head, high: nat)
    requires HeadOk(h)
    requires f == high * 0x100 + h.ra * 0x80 + h.z * 0x40 + h.ad * 0x20 + h.cd * 0x10 + h.rcode
    ensures f / 0x80 % 2 == h.ra && f / 0x40 % 2 == h.z && f / 0x20 % 2 == h.ad && f / 0x10 % 2 == h.cd && f % 16 == h.rcode
  {
    assert f / 0x80 == high * 2 + h.ra;
    assert f / 0x40 == high * 4 + h.ra * 2 + h.z;
    assert f / 0x20 == high * 8 + h.ra * 4 + h.z * 2 + h.ad;
    assert f / 0x10 == high * 16 + h.ra * 8 + h.z * 4 + h.ad * 2 + h.cd;
  }

  lemma FlagsAre(h: Head)
    requires HeadOk(h)
    ensures Flags(h) == h.qr * 0x8000 + h.opcode * 0x800 + h.aa * 0x400 + h.tc * 0x200 + h.rd * 0x100
                        + h.ra * 0x80 + h.z * 0x40 + h.ad * 0x20 + h.cd * 0x10 + h.rcode
  {
    assert h.qr % 2 == h.qr && h.opcode % 16 == h.opcode && h.aa % 2 == h.aa && h.tc % 2 == h.tc && h.rd % 2 == h.rd;
    assert h.ra % 2 == h.ra && h.z % 2 == h.z && h.ad % 2 == h.ad && h.cd % 2 == h.cd && h.rcode % 16 == h.rcode;
  }

  lemma FlagsRead(h: Head)
    requires HeadOk(h)
    ensures var f := Flags(h);
            && f < 0x1_0000 && f / 0x8000 % 2 == h.qr && f / 0x800 % 16 == h.opcode && f / 0x400 % 2 == h.aa
            && f / 0x200 % 2 == h.tc && f / 0x100 % 2 == h.rd && f / 0x80 % 2 == h.ra && f / 0x40 % 2 == h.z
            && f / 0x20 % 2 == h.ad && f / 0x10 % 2 == h.cd && f % 16 == h.rcode
  {
    var low := h.ra * 0x80 + h.z * 0x40 + h.ad * 0x20 + h.cd * 0x10 + h.rcode;
    var high := h.qr * 128 + h.opcode * 8 + h.aa * 4 + h.tc * 2 + h.rd;
    FlagsAre(h);
    hide Flags;
    HighFlags(Flags(h), h, low);
    LowFlags(Flags(h), h, high);
  }

  function CountBytes(qd: nat, an: nat, ns: nat, nr: nat): (s: seq<byte>)
    ensures |s| == 8
  {
    ShortBytes(qd) + ShortBytes(an) + ShortBytes(ns) + ShortBytes(nr)
  }

  /** Head decoding undoes head encoding. */
  lemma HeadRoundTrip(b: seq<byte>, h: Head, qd: nat, an: nat, ns: nat, nr: nat)
    requires HeadOk(h) && FieldIs(b, 0, HeaderBytes(h, CountBytes(qd, an, ns, nr)))
    requires qd < 0x1_0000 && an < 0x1_0000 && ns < 0x1_0000 && nr < 0x1_0000
    ensures |b| >= 12 && DecodeHead(b) == h
    ensures Short(b, 4) == qd && Short(b, 6) == an && Short(b, 8) == ns && Short(b, 10) == nr
  {
    hide ShortBytes, Short, Flags, FieldIs;
    var counts := CountBytes(qd, an, ns, nr);
    FieldInside(b, 0, HeaderBytes(h, counts));
    HeadField(b, 0, ShortBytes(h.id) + ShortBytes(Flags(h)), counts);
    HeadField(b, 0, ShortBytes(h.id), ShortBytes(Flags(h)));
    HeadField(b, 4, ShortBytes(qd) + ShortBytes(an) + ShortBytes(ns), ShortBytes(nr));
    HeadField(b, 4, ShortBytes(qd) + ShortBytes(an), ShortBytes(ns));
    HeadField(b, 4, ShortBytes(qd), ShortBytes(an));
    FlagsRead(h);
    LenReads(b, 0, h.id);
    LenReads(b, 2, Flags(h));
    LenReads(b, 4, qd);
    LenReads(b, 6, an);
    LenReads(b, 8, ns);
    LenReads(b, 10, nr);
  }

  // ---- Sections ----

  lemma {:induction false} ItemsSplit(b: seq<byte>, m: seq<Kind>, p: nat, e: nat, items: seq<Item>, k: nat) returns (q: nat)
    requires ItemsAt(b, m, p, e, items) && k <= |items|
    ensures ItemsAt(b, m, p, q, items[..k]) && ItemsAt(b, m, q, e, items[k..])
    decreases |items|
  {
    hide ItemAt, ItemEnd;
    if k == 0 {
      q := p;
      assert items[0..] == items;
    } else {
      q := ItemsSplit(b, m, ItemEnd(b, p), e, items[1..], k - 1);
      assert items[..k][1..] == items[1..][..k - 1] && items[1..][k - 1..] == items[k..];
    }
  }

  /** A packet from the items of its three sections. */
  function Assemble(head: Head, qd: seq<Question>, items: seq<Item>, an: nat, ns: nat): Packet
    requires an + ns <= |items|
  {
    Absorb(Packet(head, qd, Recs(items[..an]), Recs(items[an..an + ns]), Recs(items[an + ns..]), 0, 0, []), items)
  }

  predicate QuestionsOk(qs: seq<Question>) {
    forall i :: 0 <= i < |qs| ==> QuestionOk(qs[i])
  }

  predicate QuestionsReadable(qs: seq<Question>) {
    forall i :: 0 <= i < |qs| ==> QuestionReadable(qs[i])
  }

  /** A complete message: header, questions up to e, then the items of three sections. */
  ghost predicate MessageAt(b: seq<byte>, m: seq<Kind>, e: nat, head: Head, qd: seq<Question>, items: seq<Item>, an: nat, ns: nat) {
    && |m| == |b| && an + ns <= |items| < 0x1_0000 && |qd| < 0x1_0000 && NoName(m, 0, 12) && 12 <= e
    && FieldIs(b, 0, HeaderBytes(head, CountBytes(|qd|, an, ns, |items| - an - ns)))
    && QuestionsAt(b, m, 12, e, qd) && ItemsAt(b, m, e, |b|, items)
  }

  lemma ReadAllSlice(items: seq<Item>, i: nat, j: nat)
    requires i <= j <= |items|
    ensures ReadAll(items[i..j]) == ReadAll(items)[i..j]
  {
  }

  lemma MessageReads(b: seq<byte>, m: seq<Kind>, e: nat, head: Head, qd: seq<Question>, items: seq<Item>, an: nat, ns: nat)
    requires MessageAt(b, m, e, head, qd, items, an, ns) && HeadOk(head) && QuestionsOk(qd) && AllOk(items)
    ensures Decode(b) == if QuestionsReadable(qd) && AllReadable(items) then Some(Assemble(head, qd, ReadAll(items), an, ns))
                         else None
  {
    hide ItemsAt, QuestionsAt, DecodeItems, DecodeQuestions, DecodeHead, Short, FieldIs, NoName, HeaderBytes, CountBytes,
      QuestionOk, QuestionReadable, ItemOk, Readable, Recs, Absorb, ReadAll, Read, AllReadable, AllOk, HeadOk;
    HeadRoundTrip(b, head, |qd|, an, ns, |items| - an - ns);
    QuestionsRead(b, m, 12, e, qd);
    var A, B, C := items[..an], items[an..an + ns], items[an + ns..];
    var q1 := ItemsSplit(b, m, e, |b|, items, an);
    var q2 := ItemsSplit(b, m, q1, |b|, items[an..], ns);
    assert items[an..][..ns] == B && items[an..][ns..] == C;
    AllOkSplit(items, an, ns);
    ItemsRead(b, m, e, q1, A);
    ItemsRead(b, m, q1, q2, B);
    ItemsRead(b, m, q2, |b|, C);
    AllReadableSplit(items, an, ns);
    var R := ReadAll(items);
    ReadAllSlice(items, 0, an);
    ReadAllSlice(items, an, an + ns);
    ReadAllSlice(items, an + ns, |items|);
    assert items[0..an] == A && items[an + ns..|items|] == C;
    assert R[0..an] == R[..an] && R[an + ns..|items|] == R[an + ns..];
    assert R[..an] + R[an..an + ns] + R[an + ns..] == R;
  }

  lemma AllOkSplit(items: seq<Item>, an: nat, ns: nat)
    requires an + ns <= |items| && AllOk(items)
    ensures AllOk(items[..an]) && AllOk(items[an..an + ns]) && AllOk(items[an + ns..])
  {
    hide ItemOk;
  }

  lemma AllReadableSplit(items: seq<Item>, an: nat, ns: nat)
    requires an + ns <= |items|
    ensures AllReadable(items) <==> AllReadable(items[..an]) && AllReadable(items[an..an + ns]) && AllReadable(items[an + ns..])
  {
    hide Readable;
    if AllReadable(items[..an]) && AllReadable(items[an..an + ns]) && AllReadable(items[an + ns..]) {
      forall i | 0 <= i < |items| ensures Readable(items[i]) {
        if i < an {
          assert items[i] == items[..an][i];
        } else if i < an + ns {
          assert items[i] == items[an..an + ns][i - an];
        } else {
          assert items[i] == items[an + ns..][i - an - ns];
        }
      }
    }
  }

  // ---- Packets ----

  predicate PacketOk(p: Packet) {
    && HeadOk(p.head) && QuestionsOk(p.qd) && |p.qd| < 0x1_0000 && AllOk(Items(p)) && |Items(p)| < 0x1_0000
  }

  predicate PacketReadable(p: Packet) {
    QuestionsReadable(p.qd) && AllReadable(Items(p))
  }

  ghost predicate PacketKnown(p: Packet, S: set<Name>) {
    && (forall i :: 0 <= i < |p.qd| ==> Known(p.qd[i].name, S))
    && forall i :: 0 <= i < |Items(p)| ==> ItemKnown(Items(p)[i], S)
  }

  /** What a receiver holds: the same packet, a present payload size raised to 512, absent flags cleared. */
  function Received(p: Packet): Packet {
    if HasOpt(p) then p.(payload := Payload(p.payload)) else p.(option := 0)
  }

  /** The context in which the first record is written. */
  function AfterQuestions(buffer: seq<byte>, p: Packet): Option<Ctx>
    requires |buffer| >= 12
  {
    EncodeQuestions(Put(Ctx(buffer, 0, []), HeaderBytes(p.head, Counts(p))), p.qd)
  }

  /** The items as written; they differ from Items(p) only where a target was cut. */
  function SentItems(buffer: seq<byte>, p: Packet, stored: seq<nat>): seq<Item>
    requires |stored| == |Items(p)|
  {
    if |buffer| < 12 || AfterQuestions(buffer, p).None? then Items(p)
    else Sent(AfterQuestions(buffer, p).value, Items(p), stored)
  }

  lemma {:induction false} SentShape(c: Ctx, items: seq<Item>, stored: seq<nat>)
    requires |stored| == |items| && c.ptr <= |c.data|
    ensures var s := Sent(c, items, stored);
            |s| == |items| && forall i :: 0 <= i < |s| ==> SameKind(items[i], s[i])
    decreases |items|
  {
    hide EncodeItem, SentItem, SameKind;
    if items != [] {
      SentItemShape(c, items[0]);
      var r := EncodeItem(c, items[0], stored[0]);
      var rest := if r.None? then items[1..] else Sent(r.value, items[1..], stored[1..]);
      if r.Some? {
        SentShape(r.value, items[1..], stored[1..]);
      }
      forall i | 0 <= i < |items| ensures SameKind(items[i], ([SentItem(c, items[0])] + rest)[i]) {
        if i > 0 {
          assert items[i] == items[1..][i - 1];
          if r.None? {
            SameKindSelf(items[i]);
          }
        }
      }
    }
  }

  /** The same item, except perhaps for its data. */
  predicate SameKind(a: Item, b: Item) {
    if a.RR? then b.RR? && b.rec == a.rec.(data := b.rec.data) && (ItemOk(a) ==> ItemOk(b)) else a == b
  }

  lemma SameKindSelf(a: Item)
    ensures SameKind(a, a)
  {
  }

  lemma SentItemShape(c: Ctx, item: Item)
    ensures SameKind(item, SentItem(c, item))
  {
    hide EncodeHead, Put;
    LabelsOfRoot();
  }

  lemma HeadWrittenFirst(buffer: seq<byte>, fields: seq<byte>, S: set<Name>) returns (m: seq<Kind>)
    requires |fields| == 12 <= |buffer| <= MAX_BUFFER
    ensures var c := Put(Ctx(buffer, 0, []), fields);
            Live(c, m, [], S) && FieldIs(c.data, 0, fields) && NoName(m, 0, 12) && c.ptr == 12
  {
    m := seq(|buffer|, _ => Free);
    PutWritten(Ctx(buffer, 0, []), m, [], fields, S);
  }

  lemma CountsAre(p: Packet)
    ensures Counts(p) == CountBytes(|p.qd|, |p.an|, |p.ns|, |Items(p)| - |p.an| - |p.ns|)
  {
  }

  /** The message dns_encode returns is laid out completely. */
  lemma EncodeLaysOut(buffer: seq<byte>, p: Packet, stored: seq<nat>, S: set<Name>) returns (m: seq<Kind>, e: nat)
    requires PacketOk(p) && PacketKnown(p, S) && HashTellsApart(S)
    requires |buffer| <= MAX_BUFFER && |stored| == |Items(p)| && Encode(buffer, p, stored).Some?
    ensures MessageAt(Encode(buffer, p, stored).value, m, e, p.head, p.qd, SentItems(buffer, p, stored), |p.an|, |p.ns|)
  {
    hide EncodeItems, EncodeQuestions, Put, HashTellsApart, Known, ItemKnown, ItemsAt, QuestionsAt, FieldIs, NoName, HeaderBytes,
      CountBytes, Counts, Items, Sent, Valid, Truthful, Keeps, QuestionsOk, AllOk, HeadOk;
    var fields := HeaderBytes(p.head, Counts(p));
    HeaderLength(p);
    CountsAre(p);
    ItemsLength(p);
    var m0 := HeadWrittenFirst(buffer, fields, S);
    var c := Put(Ctx(buffer, 0, []), fields);
    EncodeSteps(buffer, p, stored);
    var q := EncodeQuestions(c, p.qd).value;
    var m1, reg1 := QuestionsWritten(c, m0, [], p.qd, S);
    var r := EncodeItems(q, Items(p), stored).value;
    var m2, reg2 := ItemsWritten(q, m1, reg1, Items(p), stored, S);
    e := q.ptr;
    ExtendsKeeps(q, m1, r, m2);
    SameInside(q.data, m1, r.data, m2, 0, q.ptr, 12);
    QuestionsKept(q.data, m1, r.data, m2, 12, e, p.qd);
    ExtendsTransitive(c, m0, q, m1, r, m2);
    FieldKept(c.data, m0, r.data, m2, 0, 12, 0, fields);
    NoNameKept(c.data, m0, r.data, m2, 0, 12, 0, 12);
    m := m2[..r.ptr];
    var b := r.data[..r.ptr];
    TruncateKeeps(r, m2);
    SameInside(r.data, m2, b, m, 0, r.ptr, 12);
    SameInside(r.data, m2, b, m, 0, r.ptr, e);
    SameBelow(r.data, m2, b, m, r.ptr, e);
    QuestionsKept(r.data, m2, b, m, 12, e, p.qd);
    ItemsKept(r.data, m2, b, m, e, r.ptr, Sent(q, Items(p), stored));
    FieldKept(r.data, m2, b, m, 0, r.ptr, 0, fields);
    NoNameKept(r.data, m2, b, m, 0, r.ptr, 0, 12);
    SentShape(q, Items(p), stored);
  }

  lemma SameBelow(b: seq<byte>, m: seq<Kind>, b': seq<byte>, m': seq<Kind>, hi: nat, e: nat)
    requires Same(b, m, b', m', 0, hi) && e <= hi
    ensures Same(b, m, b', m', 0, e) && (12 <= e ==> Same(b, m, b', m', 12, e))
  {
  }

  lemma HeaderLength(p: Packet)
    ensures |HeaderBytes(p.head, Counts(p))| == 12
  {
  }

  lemma ItemsLength(p: Packet)
    ensures |p.an| + |p.ns| <= |Items(p)|
  {
  }

  lemma EncodeSteps(buffer: seq<byte>, p: Packet, stored: seq<nat>)
    requires |stored| == |Items(p)| && Encode(buffer, p, stored).Some?
    ensures |buffer| >= 12 && AfterQuestions(buffer, p).Some?
    ensures var r := EncodeItems(AfterQuestions(buffer, p).value, Items(p), stored);
            r.Some? && Encode(buffer, p, stored).value == r.value.data[..r.value.ptr]
  {
    hide EncodeItems, EncodeQuestions, Put, Items, Counts;
  }

  /** Nothing behind the cursor belongs to a name, so the message can be cut there. */
  lemma TruncateKeeps(c: Ctx, m: seq<Kind>)
    requires c.ptr <= |c.data| == |m| && FreeFrom(m, c.ptr)
    ensures Keeps(c.data, m, c.data[..c.ptr], m[..c.ptr]) && Same(c.data, m, c.data[..c.ptr], m[..c.ptr], 0, c.ptr)
  {
  }

  // ---- Sections back into a packet ----

  lemma {:induction false} RecsOfRRs(recs: seq<Record>, rest: seq<Item>)
    ensures Recs(RRs(recs) + rest) == recs + Recs(rest)
    decreases |recs|
  {
    if recs == [] {
      assert RRs(recs) + rest == rest;
    } else {
      RecsOfRRs(recs[1..], rest);
      assert (RRs(recs) + rest)[1..] == RRs(recs[1..]) + rest;
      assert recs == [recs[0]] + recs[1..];
    }
  }

  lemma {:induction false} AbsorbSkips(p: Packet, recs: seq<Record>, rest: seq<Item>)
    ensures Absorb(p, RRs(recs) + rest) == Absorb(p, rest)
    decreases |recs|
  {
    if recs == [] {
      assert RRs(recs) + rest == rest;
    } else {
      AbsorbSkips(p, recs[1..], rest);
      assert (RRs(recs) + rest)[1..] == RRs(recs[1..]) + rest;
    }
  }

  lemma {:induction false} AbsorbKeepsSections(p: Packet, items: seq<Item>)
    ensures var q := Absorb(p, items); q.head == p.head && q.qd == p.qd && q.an == p.an && q.ns == p.ns && q.nr == p.nr
    decreases |items|
  {
    if items != [] {
      var i := items[0];
      AbsorbKeepsSections(if i.RR? then p else p.(payload := i.payload, option := i.option, opts := p.opts + i.opts), items[1..]);
    }
  }

  function OptItems(p: Packet): seq<Item> {
    if HasOpt(p) then [OptRR(Payload(p.payload), p.option, p.opts)] else []
  }

  lemma ReadItems(p: Packet)
    ensures ReadAll(Items(p)) == RRs(p.an) + (RRs(p.ns) + (RRs(p.nr) + OptItems(p)))
  {
  }

  lemma AbsorbOpt(p: Packet, q: Packet)
    requires q.payload == 0 && q.option == 0 && q.opts == []
    ensures Absorb(q, OptItems(p)) == if HasOpt(p) then q.(payload := Payload(p.payload), option := p.option, opts := p.opts) else q
  {
    if HasOpt(p) {
      var i := OptItems(p)[0];
      assert OptItems(p)[1..] == [];
      assert q.opts + i.opts == p.opts;
    }
  }

  lemma RecsOfOpt(p: Packet)
    ensures Recs(OptItems(p)) == []
  {
  }

  lemma AssembleItems(p: Packet)
    ensures |p.an| + |p.ns| <= |ReadAll(Items(p))|
    ensures Assemble(p.head, p.qd, ReadAll(Items(p)), |p.an|, |p.ns|) == Received(p)
  {
    hide RRs, Recs, Absorb, ReadAll, Items, OptItems;
    var items, an, ns := ReadAll(Items(p)), |p.an|, |p.ns|;
    ReadItems(p);
    var tail := RRs(p.nr) + OptItems(p);
    assert items[..an] == RRs(p.an) + [] && items[an..an + ns] == RRs(p.ns) + [] && items[an + ns..] == tail;
    RecsOfRRs(p.an, []);
    RecsOfRRs(p.ns, []);
    RecsOfRRs(p.nr, OptItems(p));
    RecsOfNone();
    RecsOfOpt(p);
    assert p.an + [] == p.an && p.ns + [] == p.ns && p.nr + [] == p.nr;
    var q := Packet(p.head, p.qd, p.an, p.ns, p.nr, 0, 0, []);
    AbsorbSkips(q, p.an, RRs(p.ns) + tail);
    AbsorbSkips(q, p.ns, tail);
    AbsorbSkips(q, p.nr, OptItems(p));
    AbsorbOpt(p, q);
  }

  lemma RecsOfNone()
    ensures Recs([]) == []
  {
  }

  // ---- Cut targets ----

  predicate ItemCut(c: Ctx, item: Item) {
    item.RR? &&
    var rec := item.rec;
    var h := EncodeHead(c, rec.name, RrFields(rec.rtype, C_IN, rec.ttl) + ShortBytes(0));
    h.Some? &&
    match rec.data
    case Raw(_) => false
    case Host(host) => Cut(h.value, host)
    case Soa(_, _, _, _, _, _, _) => false
    case Srv(_, _, _, target) => Left(h.value) >= 6 && Cut(Put(h.value, SrvFields(rec.data)), target)
  }

  /** Some CNAME, PTR or SRV target is reached with exactly two bytes of the buffer left. */
  predicate CutSomewhere(c: Ctx, items: seq<Item>, stored: seq<nat>)
    requires |stored| == |items| && c.ptr <= |c.data|
    decreases |items|
  {
    items != [] &&
    (ItemCut(c, items[0]) ||
     (var r := EncodeItem(c, items[0], stored[0]);
      r.Some? && CutSomewhere(r.value, items[1..], stored[1..])))
  }

  lemma ItemCutIff(c: Ctx, item: Item)
    ensures SentItem(c, item) == item <==> !ItemCut(c, item)
  {
    hide EncodeHead, Put, SrvFields;
  }

  lemma {:induction false} CutIff(c: Ctx, items: seq<Item>, stored: seq<nat>)
    requires |stored| == |items| && c.ptr <= |c.data|
    ensures Sent(c, items, stored) == items <==> !CutSomewhere(c, items, stored)
    decreases |items|
  {
    hide EncodeItem, SentItem, ItemCut;
    if items != [] {
      ItemCutIff(c, items[0]);
      var r := EncodeItem(c, items[0], stored[0]);
      assert items == [items[0]] + items[1..];
      if r.Some? {
        CutIff(r.value, items[1..], stored[1..]);
        SentTail(c, items, stored);
      } else {
        assert Sent(c, items, stored) == [SentItem(c, items[0])] + items[1..];
      }
    }
  }

  /** The guard of the failing branch, for a whole message. */
  predicate MessageCut(buffer: seq<byte>, p: Packet, stored: seq<nat>)
    requires |stored| == |Items(p)|
  {
    |buffer| >= 12 && AfterQuestions(buffer, p).Some? && CutSomewhere(AfterQuestions(buffer, p).value, Items(p), stored)
  }

  lemma {:induction false} RecsInjective(x: seq<Item>, y: seq<Item>)
    requires |x| == |y| && Recs(x) == Recs(y) && forall i :: 0 <= i < |x| ==> SameKind(x[i], y[i])
    ensures x == y
    decreases |x|
  {
    if x != [] {
      assert SameKind(x[0], y[0]);
      if x[0].RR? {
        assert Recs(x)[0] == x[0].rec && Recs(y)[0] == y[0].rec;
        assert Recs(x)[1..] == Recs(x[1..]) && Recs(y)[1..] == Recs(y[1..]);
      } else {
        assert Recs(x) == Recs(x[1..]) && Recs(y) == Recs(y[1..]);
      }
      RecsInjective(x[1..], y[1..]);
      assert x == [x[0]] + x[1..] && y == [y[0]] + y[1..];
    }
  }

  lemma {:induction false} RecsRead(items: seq<Item>)
    ensures Recs(ReadAll(items)) == Recs(items)
    decreases |items|
  {
    if items != [] {
      RecsRead(items[1..]);
      assert ReadAll(items)[1..] == ReadAll(items[1..]);
    }
  }

  /** Two packets with the same sections come from the same items. */
  lemma AssembleInjective(h: Head, qd: seq<Question>, x: seq<Item>, y: seq<Item>, an: nat, ns: nat)
    requires an + ns <= |x| == |y| && forall i :: 0 <= i < |x| ==> SameKind(x[i], y[i])
    requires Assemble(h, qd, ReadAll(x), an, ns) == Assemble(h, qd, ReadAll(y), an, ns)
    ensures x == y
  {
    hide Recs, Absorb, ReadAll, SameKind;
    var k := an + ns;
    SectionsOf(h, qd, x, an, ns);
    SectionsOf(h, qd, y, an, ns);
    RecsInjective(x[..an], y[..an]);
    RecsInjective(x[an..k], y[an..k]);
    RecsInjective(x[k..], y[k..]);
    assert x == x[..an] + x[an..k] + x[k..] && y == y[..an] + y[an..k] + y[k..];
  }

  lemma SectionsOf(h: Head, qd: seq<Question>, x: seq<Item>, an: nat, ns: nat)
    requires an + ns <= |x|
    ensures var p := Assemble(h, qd, ReadAll(x), an, ns);
            p.an == Recs(x[..an]) && p.ns == Recs(x[an..an + ns]) && p.nr == Recs(x[an + ns..])
  {
    hide Recs, Absorb, ReadAll;
    var R, k := ReadAll(x), an + ns;
    AbsorbKeepsSections(Packet(h, qd, Recs(R[..an]), Recs(R[an..k]), Recs(R[k..]), 0, 0, []), R);
    ReadAllSlice(x, 0, an);
    ReadAllSlice(x, an, k);
    ReadAllSlice(x, k, |x|);
    assert x[0..an] == x[..an] && x[k..|x|] == x[k..] && R[0..an] == R[..an] && R[k..|x|] == R[k..];
    RecsRead(x[..an]);
    RecsRead(x[an..k]);
    RecsRead(x[k..]);
  }

  /**
   * Whole-message round trip. For a fresh packet whose suffix hashes dict_hash tells apart, a message
   * that dns_encode returns is decoded to the packet it was made from whenever it is decoded at all,
   * and decoding succeeds exactly on readable packets; the one exception is a target cut by the end
   * of the buffer, and then the result is always different.
   */
  lemma MessageRoundTrip(buffer: seq<byte>, p: Packet, stored: seq<nat>, S: set<Name>)
    requires PacketOk(p) && PacketKnown(p, S) && HashTellsApart(S)
    requires |buffer| <= MAX_BUFFER && |stored| == |Items(p)| && Encode(buffer, p, stored).Some?
    ensures var msg := Encode(buffer, p, stored).value;
            && (!MessageCut(buffer, p, stored) ==> Decode(msg) == if PacketReadable(p) then Some(Received(p)) else None)
            && (MessageCut(buffer, p, stored) ==> Decode(msg) != Some(Received(p)))
  {
    hide Encode, Decode, PacketKnown, HashTellsApart, MessageAt, Assemble, ReadAll, Received, SameKind, ItemOk, Readable,
      CutSomewhere, Sent, Items, HeadOk, QuestionsOk, QuestionsReadable;
    var msg := Encode(buffer, p, stored).value;
    var sent := SentItems(buffer, p, stored);
    var m, e := EncodeLaysOut(buffer, p, stored, S);
    EncodeSteps(buffer, p, stored);
    var c := AfterQuestions(buffer, p).value;
    SentShape(c, Items(p), stored);
    SentOk(Items(p), sent);
    ItemsLength(p);
    MessageReads(msg, m, e, p.head, p.qd, sent, |p.an|, |p.ns|);
    CutIff(c, Items(p), stored);
    AssembleItems(p);
    if MessageCut(buffer, p, stored) && Decode(msg) == Some(Received(p)) {
      AssembleInjective(p.head, p.qd, Items(p), sent, |p.an|, |p.ns|);
    }
  }

  lemma SentOk(items: seq<Item>, sent: seq<Item>)
    requires |sent| == |items| && AllOk(items) && forall i :: 0 <= i < |items| ==> SameKind(items[i], sent[i])
    ensures AllOk(sent)
  {
    hide ItemOk;
    forall i | 0 <= i < |sent| ensures ItemOk(sent[i]) {
      assert SameKind(items[i], sent[i]);
    }
  }

  // ---- A condition on the result ----

  lemma CutLeavesOneByte(c: Ctx, item: Item, stored: nat)
    requires c.ptr <= |c.data| && ItemCut(c, item) && EncodeItem(c, item, stored).Some?
    ensures Left(EncodeItem(c, item, stored).value) == 1
  {
    hide EncodeHead, Put, Patch, EncodeName, SrvFields, RrFields;
    var rec := item.rec;
    var h := EncodeHead(c, rec.name, RrFields(rec.rtype, C_IN, rec.ttl) + ShortBytes(0)).value;
    if rec.data.Host? {
      CutMoves(h, rec.data.host);
    } else {
      CutMoves(Put(h, SrvFields(rec.data)), rec.data.target);
    }
  }

  lemma CutMoves(c: Ctx, t: Text)
    requires Cut(c, t)
    ensures EncodeName(c, t).c.ptr == c.ptr + 1
  {
    hide Lookup;
  }

  lemma OneByteEnds(c: Ctx, item: Item, stored: nat)
    requires Left(c) == 1
    ensures EncodeItem(c, item, stored).None?
  {
    hide EncodeName;
    NoRoomForName(c, if item.RR? then item.rec.name else []);
  }

  lemma {:induction false} CutIsLast(c: Ctx, items: seq<Item>, stored: seq<nat>)
    requires |stored| == |items| && c.ptr <= |c.data| && CutSomewhere(c, items, stored) && EncodeItems(c, items, stored).Some?
    ensures Left(EncodeItems(c, items, stored).value) == 1
    decreases |items|
  {
    hide EncodeItem, ItemCut;
    var r := EncodeItem(c, items[0], stored[0]).value;
    if ItemCut(c, items[0]) {
      CutLeavesOneByte(c, items[0], stored[0]);
      if |items| > 1 {
        OneByteEnds(r, items[1], stored[1]);
      }
    } else {
      CutIsLast(r, items[1..], stored[1..]);
    }
  }

  /** Nothing is lost unless the message fills the buffer up to its last byte. */
  lemma UnlessBufferIsFull(buffer: seq<byte>, p: Packet, stored: seq<nat>, S: set<Name>)
    requires PacketOk(p) && PacketKnown(p, S) && HashTellsApart(S)
    requires |buffer| <= MAX_BUFFER && |stored| == |Items(p)| && Encode(buffer, p, stored).Some?
    requires |Encode(buffer, p, stored).value| != |buffer| - 1
    ensures Decode(Encode(buffer, p, stored).value) == if PacketReadable(p) then Some(Received(p)) else None
  {
    hide Encode, Decode, PacketOk, PacketKnown, HashTellsApart, Received, CutSomewhere, EncodeItems, Items, PacketReadable;
    EncodeSteps(buffer, p, stored);
    if MessageCut(buffer, p, stored) {
      CutIsLast(AfterQuestions(buffer, p).value, Items(p), stored);
      QuestionsLength(buffer, p);
    }
    MessageRoundTrip(buffer, p, stored, S);
  }

  lemma QuestionsLength(buffer: seq<byte>, p: Packet)
    requires |buffer| >= 12 && AfterQuestions(buffer, p).Some?
    ensures |AfterQuestions(buffer, p).value.data| == |buffer|
  {
    hide EncodeQuestions, HeaderBytes;
  }
}
