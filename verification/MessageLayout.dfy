/** dns_encode lays a message out: every name, record and section ends up where Layout says. */
module MessageLayout {
  import opened Bytes
  import opened NameDecode
  import opened NameEncode
  import opened NameRoundTrip
  import opened NameTheorems
  import opened Message
  import opened Layout

  /** The dictionary tells the truth about the buffer. */
  ghost predicate Sound(c: Ctx, m: seq<Kind>, reg: seq<Name>, S: set<Name>) {
    c.ptr <= |c.data| && Valid(c, m, reg) && Truthful(c.dict, reg, S)
  }

  /** Sound, or one byte from the end of the buffer, where no further name can be written. */
  ghost predicate Live(c: Ctx, m: seq<Kind>, reg: seq<Name>, S: set<Name>) {
    && c.ptr <= |c.data| == |m| <= MAX_BUFFER && FreeFrom(m, c.ptr)
    && (Left(c) == 1 || Sound(c, m, reg, S))
  }

  /** What lay before position p is untouched. */
  ghost predicate Same(b: seq<byte>, m: seq<Kind>, b': seq<byte>, m': seq<Kind>, lo: nat, hi: nat) {
    && hi <= |b| == |m| && hi <= |b'| == |m'|
    && forall i :: lo <= i < hi ==> b'[i] == b[i] && m'[i] == m[i]
  }

  ghost predicate Extends(c: Ctx, m: seq<Kind>, c': Ctx, m': seq<Kind>) {
    |c'.data| == |c.data| && c.ptr <= c'.ptr && Same(c.data, m, c'.data, m', 0, c.ptr)
  }

  /** A non-empty name with exactly two bytes left, which _dns_encode_domain writes as the root name. */
  predicate Cut(c: Ctx, t: Text) {
    t != [] && Left(c) == 2
  }

  ghost predicate Known(t: Text, S: set<Name>) {
    t == [] || Labels(t) in S
  }

  lemma SoundIsLive(c: Ctx, m: seq<Kind>, reg: seq<Name>, S: set<Name>)
    requires Sound(c, m, reg, S)
    ensures Live(c, m, reg, S)
  {
  }

  lemma PrefixSame(b: seq<byte>, m: seq<Kind>, b': seq<byte>, m': seq<Kind>, p: nat)
    requires p <= |b| == |m| && p <= |b'| == |m'| && b'[..p] == b[..p] && m'[..p] == m[..p]
    ensures Same(b, m, b', m', 0, p)
  {
    forall i | 0 <= i < p ensures b'[i] == b[i] && m'[i] == m[i] {
      assert b'[i] == b'[..p][i] && m'[i] == m'[..p][i];
    }
  }

  lemma ExtendsKeeps(c: Ctx, m: seq<Kind>, c': Ctx, m': seq<Kind>)
    requires Extends(c, m, c', m') && FreeFrom(m, c.ptr)
    ensures Keeps(c.data, m, c'.data, m')
  {
  }

  lemma ExtendsTransitive(c: Ctx, m: seq<Kind>, c1: Ctx, m1: seq<Kind>, c2: Ctx, m2: seq<Kind>)
    requires Extends(c, m, c1, m1) && Extends(c1, m1, c2, m2)
    ensures Extends(c, m, c2, m2)
  {
  }

  // ---- Names ----

  lemma NoRoomForName(c: Ctx, t: Text)
    requires Left(c) == 1
    ensures EncodeName(c, t).ret < 0
  {
    hide Lookup;
  }

  lemma CutWritten(c: Ctx, m: seq<Kind>, reg: seq<Name>, t: Text, S: set<Name>) returns (m': seq<Kind>)
    requires Live(c, m, reg, S) && Cut(c, t)
    ensures var r := EncodeName(c, t);
            && r.ret == 1 && Live(r.c, m', reg, S) && Left(r.c) == 1 && r.c.ptr == c.ptr + 1
            && Extends(c, m, r.c, m') && NameIs(r.c.data, m', c.ptr, r.c.ptr, [])
  {
    hide Lookup;
    var found := Lookup(c.(ptr := c.ptr + 1), t);
    var r := EncodeName(c, t);
    assert r == Finish(found.c, c.ptr, 0, 1);
    assert r.c.data == c.data[c.ptr := 0];
    m' := m[c.ptr := Length];
    NameRoot(r.c.data, m', c.ptr);
  }

  /** A name written by a successful call, and the state it leaves. */
  lemma NameWritten(c: Ctx, m: seq<Kind>, reg: seq<Name>, t: Text, S: set<Name>)
    returns (m': seq<Kind>, reg': seq<Name>)
    requires Live(c, m, reg, S) && HashTellsApart(S) && Known(t, S) && EncodeName(c, t).ret >= 0
    ensures var r := EncodeName(c, t);
            && Live(r.c, m', reg', S) && Extends(c, m, r.c, m') && r.ret == r.c.ptr - c.ptr
            && NameIs(r.c.data, m', c.ptr, r.c.ptr, if Cut(c, t) then [] else t)
            && (Cut(c, t) ==> Left(r.c) == 1)
  {
    hide EncodeName, NameAt, Cursor, Labels, Join, HashTellsApart, Entries, Truthful;
    if Left(c) == 1 {
      NoRoomForName(c, t);
    } else if Cut(c, t) {
      m' := CutWritten(c, m, reg, t, S);
      reg' := reg;
    } else {
      JoinLabels(t);
      LabelsOfRoot();
      m', reg' := EncodeTrue(c, m, reg, Labels(t), S);
      var r := EncodeName(c, t);
      PrefixSame(c.data, m, r.c.data, m', c.ptr);
    }
  }

  lemma LabelsOfRoot()
    ensures Labels([]) == []
  {
  }

  // ---- Fixed fields ----

  lemma PutWritten(c: Ctx, m: seq<Kind>, reg: seq<Name>, s: seq<byte>, S: set<Name>)
    requires Sound(c, m, reg, S) && |s| <= Left(c)
    ensures Sound(Put(c, s), m, reg, S) && Extends(c, m, Put(c, s), m)
    ensures FieldIs(Put(c, s).data, c.ptr, s) && NoName(m, c.ptr, c.ptr + |s|)
  {
    hide Entry, Truthful;
    ExtendsKeeps(c, m, Put(c, s), m);
    EntriesKept(c.data, m, Put(c, s).data, m, c.dict, reg);
  }

  lemma WriteKeeps(b: seq<byte>, m: seq<Kind>, p: nat, s: seq<byte>)
    requires p + |s| <= |b| == |m| && NoName(m, p, p + |s|)
    ensures Keeps(b, m, Write(b, p, s), m)
  {
  }

  lemma PatchWritten(c: Ctx, m: seq<Kind>, reg: seq<Name>, p: nat, v: nat, S: set<Name>)
    requires Live(c, m, reg, S) && p + 2 <= c.ptr && NoName(m, p, p + 2)
    ensures Live(Patch(c, p, v), m, reg, S) && Keeps(c.data, m, Patch(c, p, v).data, m)
    ensures FieldIs(Patch(c, p, v).data, p, ShortBytes(v))
    ensures Same(c.data, m, Patch(c, p, v).data, m, 0, p) && Same(c.data, m, Patch(c, p, v).data, m, p + 2, |c.data|)
  {
    hide Entry, Truthful;
    WriteKeeps(c.data, m, p, ShortBytes(v));
    if Left(c) != 1 {
      EntriesKept(c.data, m, Patch(c, p, v).data, m, c.dict, reg);
    }
  }

  // ---- Keeping what has been laid out ----

  lemma NameIsKept(b: seq<byte>, m: seq<Kind>, b': seq<byte>, m': seq<Kind>, p: nat, e: nat, t: Text)
    requires NameIs(b, m, p, e, t) && Keeps(b, m, b', m')
    ensures NameIs(b', m', p, e, t)
  {
    hide NameAt, Cursor, Labels, Keeps;
    NameKept(b, m, b', m', p, Labels(t));
  }

  lemma FieldKept(b: seq<byte>, m: seq<Kind>, b': seq<byte>, m': seq<Kind>, lo: nat, hi: nat, p: nat, s: seq<byte>)
    requires FieldIs(b, p, s) && Same(b, m, b', m', lo, hi) && lo <= p && p + |s| <= hi
    ensures FieldIs(b', p, s)
  {
  }

  lemma NoNameKept(b: seq<byte>, m: seq<Kind>, b': seq<byte>, m': seq<Kind>, lo: nat, hi: nat, p: nat, e: nat)
    requires NoName(m, p, e) && Same(b, m, b', m', lo, hi) && lo <= p && e <= hi
    ensures NoName(m', p, e)
  {
  }

  lemma DataKept(b: seq<byte>, m: seq<Kind>, b': seq<byte>, m': seq<Kind>, p: nat, e: nat, d: Rdata)
    requires DataAt(b, m, p, e, d) && Keeps(b, m, b', m') && Same(b, m, b', m', p, e)
    ensures DataAt(b', m', p, e, d)
  {
    hide NameIs, FieldIs, NoName, Keeps, SoaFields, SrvFields, Cursor;
    match d
    case Raw(data) => assert b'[p..e] == b[p..e];
    case Host(host) => NameIsKept(b, m, b', m', p, e, host);
    case Soa(mname, rname, _, _, _, _, _) =>
      var q := Cursor(b, p);
      CursorInside(b, m, p, q, mname);
      CursorInside(b, m, q, e - 20, rname);
      NameIsKept(b, m, b', m', p, q, mname);
      CursorIs(b', m', p, q, mname);
      NameIsKept(b, m, b', m', q, e - 20, rname);
      FieldKept(b, m, b', m', p, e, e - 20, SoaFields(d));
      NoNameKept(b, m, b', m', p, e, e - 20, e);
    case Srv(_, _, _, target) =>
      CursorInside(b, m, p + 6, e, target);
      FieldKept(b, m, b', m', p, e, p, SrvFields(d));
      NoNameKept(b, m, b', m', p, e, p, p + 6);
      NameIsKept(b, m, b', m', p + 6, e, target);
  }

  lemma CursorIs(b: seq<byte>, m: seq<Kind>, p: nat, e: nat, t: Text)
    requires NameIs(b, m, p, e, t)
    ensures Cursor(b, p) == e
  {
  }

  lemma RecordKept(b: seq<byte>, m: seq<Kind>, b': seq<byte>, m': seq<Kind>, p: nat, e: nat, rec: Record)
    requires ItemAt(b, m, p, e, RR(rec)) && Keeps(b, m, b', m') && Same(b, m, b', m', p, e)
    ensures ItemAt(b', m', p, e, RR(rec))
  {
    hide NameIs, FieldIs, NoName, Keeps, Cursor, DataAt, RrFields, ShortBytes, Same;
    var q := Cursor(b, p);
    CursorInside(b, m, p, q, rec.name);
    NameIsKept(b, m, b', m', p, q, rec.name);
    CursorIs(b', m', p, q, rec.name);
    SameInside(b, m, b', m', p, e, q + 10);
    NoNameKept(b, m, b', m', p, e, q, q + 10);
    FieldKept(b, m, b', m', p, e, q + 8, ShortBytes(e - (q + 10)));
    FieldKept(b, m, b', m', p, e, q, RrFields(rec.rtype, C_IN, rec.ttl));
    DataKept(b, m, b', m', q + 10, e, rec.data);
    if rec.data.Raw? {
      NoNameKept(b, m, b', m', p, e, q + 10, e);
    }
  }

  lemma SameInside(b: seq<byte>, m: seq<Kind>, b': seq<byte>, m': seq<Kind>, lo: nat, hi: nat, p: nat)
    requires Same(b, m, b', m', lo, hi) && lo <= p
    ensures Same(b, m, b', m', p, hi) && hi <= |b| == |m| && hi <= |b'| == |m'|
  {
  }

  lemma OptKept(b: seq<byte>, m: seq<Kind>, b': seq<byte>, m': seq<Kind>, p: nat, e: nat, item: Item)
    requires item.OptRR? && ItemAt(b, m, p, e, item) && Keeps(b, m, b', m') && Same(b, m, b', m', p, e)
    ensures ItemAt(b', m', p, e, item)
  {
    hide NameIs, FieldIs, NoName, Keeps, Cursor, RrFields, ShortBytes, OptsBytes;
    var q := Cursor(b, p);
    CursorInside(b, m, p, q, []);
    NameIsKept(b, m, b', m', p, q, []);
    CursorIs(b', m', p, q, []);
    NoNameKept(b, m, b', m', p, e, q, q + 10);
    FieldKept(b, m, b', m', p, e, q + 8, ShortBytes(e - (q + 10)));
    FieldKept(b, m, b', m', p, e, q, RrFields(T_OPT, Payload(item.payload), item.option));
    NoNameKept(b, m, b', m', p, e, q + 10, e);
    assert b'[q + 10..e] == b[q + 10..e];
  }

  lemma ItemKept(b: seq<byte>, m: seq<Kind>, b': seq<byte>, m': seq<Kind>, p: nat, e: nat, item: Item)
    requires ItemAt(b, m, p, e, item) && Keeps(b, m, b', m') && Same(b, m, b', m', p, e)
    ensures ItemAt(b', m', p, e, item) && ItemEnd(b', p) == e
  {
    hide ItemAt, Keeps, Same, ItemEnd;
    match item {
      case RR(rec) => RecordKept(b, m, b', m', p, e, rec);
      case OptRR(_, _, _) => OptKept(b, m, b', m', p, e, item);
    }
    EndsAgree(b', m', p, e, item);
  }

  lemma QuestionKept(b: seq<byte>, m: seq<Kind>, b': seq<byte>, m': seq<Kind>, p: nat, e: nat, q: Question)
    requires QuestionAt(b, m, p, e, q) && Keeps(b, m, b', m') && Same(b, m, b', m', p, e)
    ensures QuestionAt(b', m', p, e, q) && QuestionEnd(b', p) == e
  {
    hide NameIs, FieldIs, NoName, Keeps, Cursor, QFields;
    CursorInside(b, m, p, e - 4, q.name);
    NameIsKept(b, m, b', m', p, e - 4, q.name);
    CursorIs(b', m', p, e - 4, q.name);
    FieldKept(b, m, b', m', p, e, e - 4, QFields(q));
    NoNameKept(b, m, b', m', p, e, e - 4, e);
  }

  // ---- What is really sent ----

  /** The data as written: a target cut by the end of the buffer is written as the root name. */
  function SentData(c: Ctx, d: Rdata): Rdata {
    match d
    case Raw(_) => d
    case Host(host) => if Cut(c, host) then Host([]) else d
    case Soa(_, _, _, _, _, _, _) => d
    case Srv(priority, weight, port, target) =>
      if Left(c) >= 6 && Cut(Put(c, SrvFields(d)), target) then Srv(priority, weight, port, []) else d
  }

  function SentItem(c: Ctx, item: Item): Item {
    match item
    case RR(rec) =>
      var h := EncodeHead(c, rec.name, RrFields(rec.rtype, C_IN, rec.ttl) + ShortBytes(0));
      if h.None? then item else RR(rec.(data := SentData(h.value, rec.data)))
    case OptRR(_, _, _) => item
  }

  function Sent(c: Ctx, items: seq<Item>, stored: seq<nat>): seq<Item>
    requires |stored| == |items| && c.ptr <= |c.data|
    decreases |items|
  {
    if items == [] then []
    else
      var r := EncodeItem(c, items[0], stored[0]);
      [SentItem(c, items[0])] + if r.None? then items[1..] else Sent(r.value, items[1..], stored[1..])
  }

  ghost predicate DataKnown(d: Rdata, S: set<Name>) {
    match d
    case Raw(_) => true
    case Host(host) => Known(host, S)
    case Soa(mname, rname, _, _, _, _, _) => Known(mname, S) && Known(rname, S)
    case Srv(_, _, _, target) => Known(target, S)
  }

  ghost predicate ItemKnown(item: Item, S: set<Name>) {
    item.RR? ==> Known(item.rec.name, S) && DataKnown(item.rec.data, S)
  }

  // ---- Records ----

  lemma HeadWritten(c: Ctx, m: seq<Kind>, reg: seq<Name>, t: Text, fields: seq<byte>, S: set<Name>)
    returns (m': seq<Kind>, reg': seq<Name>)
    requires Live(c, m, reg, S) && HashTellsApart(S) && Known(t, S) && |fields| >= 2
    requires EncodeHead(c, t, fields).Some?
    ensures var c' := EncodeHead(c, t, fields).value; var q := c'.ptr - |fields|;
            && Sound(c', m', reg', S) && Extends(c, m, c', m') && c.ptr < q
            && NameIs(c'.data, m', c.ptr, q, t) && FieldIs(c'.data, q, fields) && NoName(m', q, c'.ptr)
  {
    hide EncodeName, NameIs, HashTellsApart, Valid, Truthful, FieldIs, NoName, Put;
    var r := EncodeName(c, t);
    m', reg' := NameWritten(c, m, reg, t, S);
    PutWritten(r.c, m', reg', fields, S);
    var c' := EncodeHead(c, t, fields).value;
    assert c' == Put(r.c, fields);
    ExtendsTransitive(c, m, r.c, m', c', m');
    ExtendsKeeps(r.c, m', c', m');
    NameIsKept(r.c.data, m', c'.data, m', c.ptr, r.c.ptr, t);
  }

  lemma HostWritten(c: Ctx, m: seq<Kind>, reg: seq<Name>, d: Rdata, stored: nat, S: set<Name>)
    returns (m': seq<Kind>, reg': seq<Name>)
    requires d.Host? && Sound(c, m, reg, S) && HashTellsApart(S) && DataKnown(d, S) && EncodeData(c, d, stored).Some?
    ensures var r := EncodeData(c, d, stored).value;
            && Live(r.0, m', reg', S) && Extends(c, m, r.0, m') && r.1 == r.0.ptr - c.ptr
            && DataAt(r.0.data, m', c.ptr, r.0.ptr, SentData(c, d))
  {
    hide EncodeName, NameIs, HashTellsApart, Truthful;
    m', reg' := NameWritten(c, m, reg, d.host, S);
  }

  lemma SrvWritten(c: Ctx, m: seq<Kind>, reg: seq<Name>, d: Rdata, stored: nat, S: set<Name>)
    returns (m': seq<Kind>, reg': seq<Name>)
    requires d.Srv? && Sound(c, m, reg, S) && HashTellsApart(S) && DataKnown(d, S) && EncodeData(c, d, stored).Some?
    ensures var r := EncodeData(c, d, stored).value;
            && Live(r.0, m', reg', S) && Extends(c, m, r.0, m') && r.1 == r.0.ptr - c.ptr
            && DataAt(r.0.data, m', c.ptr, r.0.ptr, SentData(c, d))
  {
    hide EncodeName, NameIs, HashTellsApart, Truthful, Put, FieldIs, NoName;
    var c1 := Put(c, SrvFields(d));
    PutWritten(c, m, reg, SrvFields(d), S);
    m', reg' := NameWritten(c1, m, reg, d.target, S);
    var c2 := EncodeName(c1, d.target).c;
    ExtendsTransitive(c, m, c1, m, c2, m');
    FieldKept(c1.data, m, c2.data, m', 0, c1.ptr, c.ptr, SrvFields(d));
    NoNameKept(c1.data, m, c2.data, m', 0, c1.ptr, c.ptr, c.ptr + 6);
    assert SrvFields(SentData(c, d)) == SrvFields(d);
  }

  lemma SoaWritten(c: Ctx, m: seq<Kind>, reg: seq<Name>, d: Rdata, stored: nat, S: set<Name>)
    returns (m': seq<Kind>, reg': seq<Name>)
    requires d.Soa? && Sound(c, m, reg, S) && HashTellsApart(S) && DataKnown(d, S) && EncodeData(c, d, stored).Some?
    ensures var r := EncodeData(c, d, stored).value;
            && Live(r.0, m', reg', S) && Extends(c, m, r.0, m') && r.1 == r.0.ptr - c.ptr
            && DataAt(r.0.data, m', c.ptr, r.0.ptr, SentData(c, d))
  {
    hide EncodeName, NameIs, HashTellsApart, Truthful, Valid, Put, FieldIs, NoName, SoaFields, FreeFrom, Cursor;
    SoundIsLive(c, m, reg, S);
    var c1 := EncodeName(c, d.mname).c;
    var c2 := EncodeName(c1, d.rname).c;
    var m1, reg1 := NameWritten(c, m, reg, d.mname, S);
    m', reg' := NameWritten(c1, m1, reg1, d.rname, S);
    LiveRoom(c1, m1, reg1, d.rname, S);
    var c3 := Put(c2, SoaFields(d));
    PutWritten(c2, m', reg', SoaFields(d), S);
    SoundIsLive(c3, m', reg', S);
    ExtendsTransitive(c, m, c1, m1, c2, m');
    ExtendsTransitive(c, m, c2, m', c3, m');
    ExtendsKeeps(c1, m1, c2, m');
    ExtendsKeeps(c2, m', c3, m');
    NameIsKept(c1.data, m1, c2.data, m', c.ptr, c1.ptr, d.mname);
    NameIsKept(c2.data, m', c3.data, m', c.ptr, c1.ptr, d.mname);
    NameIsKept(c2.data, m', c3.data, m', c1.ptr, c2.ptr, d.rname);
    CursorIs(c3.data, m', c.ptr, c1.ptr, d.mname);
  }

  /** A call that succeeded was not at the very end of the buffer. */
  lemma LiveRoom(c: Ctx, m: seq<Kind>, reg: seq<Name>, t: Text, S: set<Name>)
    requires Live(c, m, reg, S) && EncodeName(c, t).ret >= 0
    ensures Left(c) != 1
  {
    hide EncodeName;
    if Left(c) == 1 {
      NoRoomForName(c, t);
    }
  }

  lemma DataWritten(c: Ctx, m: seq<Kind>, reg: seq<Name>, d: Rdata, stored: nat, S: set<Name>)
    returns (m': seq<Kind>, reg': seq<Name>)
    requires Sound(c, m, reg, S) && HashTellsApart(S) && DataKnown(d, S) && EncodeData(c, d, stored).Some?
    ensures var r := EncodeData(c, d, stored).value;
            && Live(r.0, m', reg', S) && Extends(c, m, r.0, m') && r.1 == r.0.ptr - c.ptr
            && DataAt(r.0.data, m', c.ptr, r.0.ptr, SentData(c, d))
            && (d.Raw? ==> NoName(m', c.ptr, r.0.ptr))
  {
    if d.Raw? {
      hide HashTellsApart, Truthful, Entries;
      m', reg' := m, reg;
      PutWritten(c, m, reg, d.data, S);
    } else {
      hide EncodeData, DataAt, Live, Sound, HashTellsApart, DataKnown, SentData, Extends;
      match d
      case Host(_) => m', reg' := HostWritten(c, m, reg, d, stored, S);
      case Soa(_, _, _, _, _, _, _) => m', reg' := SoaWritten(c, m, reg, d, stored, S);
      case Srv(_, _, _, _) => m', reg' := SrvWritten(c, m, reg, d, stored, S);
    }
  }

  /** The pieces of a record put together: head, data, and the length patched in behind them. */
  lemma RecordAssembled(c: Ctx, h: Ctx, m1: seq<Kind>, d: Ctx, m': seq<Kind>, reg: seq<Name>, rec: Record, S: set<Name>)
    requires h.ptr <= |h.data| == |m1|
    requires FreeFrom(m1, h.ptr) && Extends(h, m1, d, m') && Live(d, m', reg, S) && c.ptr + 10 < h.ptr
    requires NameIs(h.data, m1, c.ptr, h.ptr - 10, rec.name) && NoName(m1, h.ptr - 10, h.ptr)
    requires FieldIs(h.data, h.ptr - 10, RrFields(rec.rtype, C_IN, rec.ttl) + ShortBytes(0))
    requires DataAt(d.data, m', h.ptr, d.ptr, rec.data) && (rec.data.Raw? ==> NoName(m', h.ptr, d.ptr))
    ensures var f := Patch(d, h.ptr - 2, d.ptr - h.ptr);
            Live(f, m', reg, S) && ItemAt(f.data, m', c.ptr, d.ptr, RR(rec))
  {
    hide NameIs, Valid, Truthful, Cursor, RrFields, ShortBytes, DataAt, Patch, Keeps;
    var q := h.ptr - 10;
    var f := Patch(d, h.ptr - 2, d.ptr - h.ptr);
    ExtendsKeeps(h, m1, d, m');
    NameIsKept(h.data, m1, d.data, m', c.ptr, q, rec.name);
    NoNameKept(h.data, m1, d.data, m', 0, h.ptr, q, h.ptr);
    PatchWritten(d, m', reg, h.ptr - 2, d.ptr - h.ptr, S);
    NameIsKept(d.data, m', f.data, m', c.ptr, q, rec.name);
    CursorIs(f.data, m', c.ptr, q, rec.name);
    HeadField(h.data, q, RrFields(rec.rtype, C_IN, rec.ttl), ShortBytes(0));
    FieldKept(h.data, m1, d.data, m', 0, h.ptr, q, RrFields(rec.rtype, C_IN, rec.ttl));
    FieldKept(d.data, m', f.data, m', 0, h.ptr - 2, q, RrFields(rec.rtype, C_IN, rec.ttl));
    SameShorter(d.data, m', f.data, m', h.ptr, d.ptr);
    DataKept(d.data, m', f.data, m', h.ptr, d.ptr, rec.data);
  }

  lemma SameShorter(b: seq<byte>, m: seq<Kind>, b': seq<byte>, m': seq<Kind>, p: nat, e: nat)
    requires Same(b, m, b', m', p, |b|) && e <= |b|
    ensures Same(b, m, b', m', p, e)
  {
  }

  lemma HeadField(b: seq<byte>, p: nat, s: seq<byte>, t: seq<byte>)
    requires FieldIs(b, p, s + t)
    ensures FieldIs(b, p, s) && FieldIs(b, p + |s|, t)
  {
    SubField(b, p, s + t, 0, |s|);
    SubField(b, p, s + t, |s|, |s| + |t|);
    assert (s + t)[0..|s|] == s && (s + t)[|s|..|s| + |t|] == t;
  }

  lemma RecordWritten(c: Ctx, m: seq<Kind>, reg: seq<Name>, item: Item, stored: nat, S: set<Name>)
    returns (m': seq<Kind>, reg': seq<Name>)
    requires item.RR? && Live(c, m, reg, S) && HashTellsApart(S) && ItemKnown(item, S) && EncodeItem(c, item, stored).Some?
    ensures var r := EncodeItem(c, item, stored).value;
            Live(r, m', reg', S) && Extends(c, m, r, m') && ItemAt(r.data, m', c.ptr, r.ptr, SentItem(c, item))
  {
    hide EncodeHead, EncodeData, NameIs, HashTellsApart, Valid, Truthful, FieldIs, NoName, DataAt, DataKnown, RrFields,
      ShortBytes, SentData, ItemAt, Patch, FreeFrom;
    var rec := item.rec;
    var fields := RrFields(rec.rtype, C_IN, rec.ttl) + ShortBytes(0);
    var m1, reg1 := HeadWritten(c, m, reg, rec.name, fields, S);
    var h := EncodeHead(c, rec.name, fields).value;
    SoundIsLive(h, m1, reg1, S);
    m', reg' := DataWritten(h, m1, reg1, rec.data, stored, S);
    var d := EncodeData(h, rec.data, stored).value;
    SentRaw(h, rec.data);
    RecordAssembled(c, h, m1, d.0, m', reg', rec.(data := SentData(h, rec.data)), S);
    ExtendsTransitive(c, m, h, m1, d.0, m');
    PatchWritten'(d.0, m', h.ptr - 2, d.1, c.ptr);
    var r := EncodeItem(c, item, stored).value;
    assert r == Patch(d.0, h.ptr - 2, d.1);
    assert Extends(c, m, r, m');
  }

  lemma SentRaw(c: Ctx, d: Rdata)
    ensures SentData(c, d).Raw? <==> d.Raw?
  {
  }

  lemma PatchWritten'(c: Ctx, m: seq<Kind>, p: nat, v: nat, k: nat)
    requires k <= p && p + 2 <= |c.data| == |m|
    ensures Same(c.data, m, Patch(c, p, v).data, m, 0, k)
  {
  }

  lemma OptWritten(c: Ctx, m: seq<Kind>, reg: seq<Name>, item: Item, stored: nat, S: set<Name>)
    returns (m': seq<Kind>, reg': seq<Name>)
    requires item.OptRR? && Live(c, m, reg, S) && HashTellsApart(S) && EncodeItem(c, item, stored).Some?
    ensures var r := EncodeItem(c, item, stored).value;
            Live(r, m', reg', S) && Extends(c, m, r, m') && ItemAt(r.data, m', c.ptr, r.ptr, item)
  {
    hide EncodeHead, NameIs, HashTellsApart, Valid, Truthful, NoName, RrFields, ShortBytes, FreeFrom, OptsBytes, Put, Cursor, Keeps;
    var opts := OptsBytes(item.opts);
    var head := RrFields(T_OPT, Payload(item.payload), item.option);
    var fields := head + ShortBytes(|opts|);
    m', reg' := HeadWritten(c, m, reg, [], fields, S);
    var h := EncodeHead(c, [], fields).value;
    PutWritten(h, m', reg', opts, S);
    var r := Put(h, opts);
    SoundIsLive(r, m', reg', S);
    SoundIsLive(h, m', reg', S);
    ExtendsTransitive(c, m, h, m', r, m');
    ExtendsKeeps(h, m', r, m');
    var q := h.ptr - 10;
    NameIsKept(h.data, m', r.data, m', c.ptr, q, []);
    CursorIs(r.data, m', c.ptr, q, []);
    HeadField(h.data, q, head, ShortBytes(|opts|));
    FieldKept(h.data, m', r.data, m', 0, h.ptr, q, head);
    FieldKept(h.data, m', r.data, m', 0, h.ptr, q + 8, ShortBytes(|opts|));
  }

  lemma ItemWritten(c: Ctx, m: seq<Kind>, reg: seq<Name>, item: Item, stored: nat, S: set<Name>)
    returns (m': seq<Kind>, reg': seq<Name>)
    requires Live(c, m, reg, S) && HashTellsApart(S) && ItemKnown(item, S) && EncodeItem(c, item, stored).Some?
    ensures var r := EncodeItem(c, item, stored).value;
            Live(r, m', reg', S) && Extends(c, m, r, m') && ItemAt(r.data, m', c.ptr, r.ptr, SentItem(c, item))
  {
    hide EncodeItem, ItemAt, Live, HashTellsApart, ItemKnown, Extends, EncodeHead;
    match item {
      case RR(_) => m', reg' := RecordWritten(c, m, reg, item, stored, S);
      case OptRR(_, _, _) => m', reg' := OptWritten(c, m, reg, item, stored, S);
    }
  }

  lemma {:induction false} ItemsKept(b: seq<byte>, m: seq<Kind>, b': seq<byte>, m': seq<Kind>, p: nat, e: nat, items: seq<Item>)
    requires ItemsAt(b, m, p, e, items) && Keeps(b, m, b', m') && Same(b, m, b', m', p, e)
    ensures ItemsAt(b', m', p, e, items) && p <= e
    decreases |items|
  {
    hide ItemAt, Keeps, ItemEnd;
    if items != [] {
      var q := ItemEnd(b, p);
      ItemsForward(b, m, q, e, items[1..]);
      ItemForward(b, m, p, q, items[0]);
      ItemKept(b, m, b', m', p, q, items[0]);
      ItemsKept(b, m, b', m', q, e, items[1..]);
    }
  }

  lemma ItemForward(b: seq<byte>, m: seq<Kind>, p: nat, e: nat, item: Item)
    requires ItemAt(b, m, p, e, item)
    ensures p < e <= |b|
  {
    hide NameIs, DataAt, OptsBytes, RrFields, FieldIs, NoName;
    CursorInside(b, m, p, Cursor(b, p), if item.RR? then item.rec.name else []);
  }

  lemma {:induction false} ItemsForward(b: seq<byte>, m: seq<Kind>, p: nat, e: nat, items: seq<Item>)
    requires ItemsAt(b, m, p, e, items)
    ensures p <= e
    decreases |items|
  {
    hide ItemAt, ItemEnd;
    if items != [] {
      ItemForward(b, m, p, ItemEnd(b, p), items[0]);
      ItemsForward(b, m, ItemEnd(b, p), e, items[1..]);
    }
  }

  lemma {:induction false} ItemsWritten(c: Ctx, m: seq<Kind>, reg: seq<Name>, items: seq<Item>, stored: seq<nat>, S: set<Name>)
    returns (m': seq<Kind>, reg': seq<Name>)
    requires Live(c, m, reg, S) && HashTellsApart(S) && |stored| == |items|
    requires forall i :: 0 <= i < |items| ==> ItemKnown(items[i], S)
    requires EncodeItems(c, items, stored).Some?
    ensures var r := EncodeItems(c, items, stored).value;
            && Live(r, m', reg', S) && Extends(c, m, r, m')
            && ItemsAt(r.data, m', c.ptr, r.ptr, Sent(c, items, stored))
    decreases |items|
  {
    hide EncodeItem, ItemAt, HashTellsApart, ItemKnown, SentItem, Valid, Truthful, ItemEnd, Keeps;
    if items == [] {
      m', reg' := m, reg;
    } else {
      var c1 := EncodeItem(c, items[0], stored[0]).value;
      var m1, reg1 := ItemWritten(c, m, reg, items[0], stored[0], S);
      m', reg' := ItemsWritten(c1, m1, reg1, items[1..], stored[1..], S);
      var r := EncodeItems(c, items, stored).value;
      ExtendsTransitive(c, m, c1, m1, r, m');
      ExtendsKeeps(c1, m1, r, m');
      SameInside(c1.data, m1, r.data, m', 0, c1.ptr, c.ptr);
      ItemKept(c1.data, m1, r.data, m', c.ptr, c1.ptr, SentItem(c, items[0]));
      SentTail(c, items, stored);
    }
  }

  lemma SentTail(c: Ctx, items: seq<Item>, stored: seq<nat>)
    requires |stored| == |items| && c.ptr <= |c.data| && items != [] && EncodeItem(c, items[0], stored[0]).Some?
    ensures Sent(c, items, stored)[0] == SentItem(c, items[0])
    ensures Sent(c, items, stored)[1..] == Sent(EncodeItem(c, items[0], stored[0]).value, items[1..], stored[1..])
  {
    hide EncodeItem, SentItem;
  }

  lemma QuestionWritten(c: Ctx, m: seq<Kind>, reg: seq<Name>, q: Question, S: set<Name>)
    returns (m': seq<Kind>, reg': seq<Name>)
    requires Live(c, m, reg, S) && HashTellsApart(S) && Known(q.name, S) && EncodeQuestion(c, q).Some?
    ensures var r := EncodeQuestion(c, q).value;
            Live(r, m', reg', S) && Extends(c, m, r, m') && QuestionAt(r.data, m', c.ptr, r.ptr, q)
  {
    hide EncodeHead, NameIs, HashTellsApart, Valid, Truthful, FieldIs, NoName, QFields;
    m', reg' := HeadWritten(c, m, reg, q.name, QFields(q), S);
    SoundIsLive(EncodeQuestion(c, q).value, m', reg', S);
  }

  lemma {:induction false} QuestionsWritten(c: Ctx, m: seq<Kind>, reg: seq<Name>, qs: seq<Question>, S: set<Name>)
    returns (m': seq<Kind>, reg': seq<Name>)
    requires Live(c, m, reg, S) && HashTellsApart(S) && forall i :: 0 <= i < |qs| ==> Known(qs[i].name, S)
    requires EncodeQuestions(c, qs).Some?
    ensures var r := EncodeQuestions(c, qs).value;
            Live(r, m', reg', S) && Extends(c, m, r, m') && QuestionsAt(r.data, m', c.ptr, r.ptr, qs)
    decreases |qs|
  {
    hide EncodeQuestion, QuestionAt, HashTellsApart, Known, Valid, Truthful, QuestionEnd, Keeps;
    if qs == [] {
      m', reg' := m, reg;
    } else {
      var c1 := EncodeQuestion(c, qs[0]).value;
      var m1, reg1 := QuestionWritten(c, m, reg, qs[0], S);
      m', reg' := QuestionsWritten(c1, m1, reg1, qs[1..], S);
      var r := EncodeQuestions(c, qs).value;
      ExtendsTransitive(c, m, c1, m1, r, m');
      ExtendsKeeps(c1, m1, r, m');
      SameInside(c1.data, m1, r.data, m', 0, c1.ptr, c.ptr);
      QuestionKept(c1.data, m1, r.data, m', c.ptr, c1.ptr, qs[0]);
    }
  }

  lemma {:induction false} QuestionsKept(b: seq<byte>, m: seq<Kind>, b': seq<byte>, m': seq<Kind>, p: nat, e: nat, qs: seq<Question>)
    requires QuestionsAt(b, m, p, e, qs) && Keeps(b, m, b', m') && Same(b, m, b', m', p, e)
    ensures QuestionsAt(b', m', p, e, qs) && p <= e
    decreases |qs|
  {
    hide QuestionAt, Keeps, QuestionEnd;
    if qs != [] {
      var q := QuestionEnd(b, p);
      QuestionsForward(b, m, q, e, qs[1..]);
      QuestionForward(b, m, p, q, qs[0]);
      QuestionKept(b, m, b', m', p, q, qs[0]);
      QuestionsKept(b, m, b', m', q, e, qs[1..]);
    }
  }

  lemma QuestionForward(b: seq<byte>, m: seq<Kind>, p: nat, e: nat, q: Question)
    requires QuestionAt(b, m, p, e, q)
    ensures p < e <= |b|
  {
    hide NameIs, QFields, NoName;
    CursorInside(b, m, p, e - 4, q.name);
  }

  lemma {:induction false} QuestionsForward(b: seq<byte>, m: seq<Kind>, p: nat, e: nat, qs: seq<Question>)
    requires QuestionsAt(b, m, p, e, qs)
    ensures p <= e
    decreases |qs|
  {
    hide QuestionAt, QuestionEnd;
    if qs != [] {
      QuestionForward(b, m, p, QuestionEnd(b, p), qs[0]);
      QuestionsForward(b, m, QuestionEnd(b, p), e, qs[1..]);
    }
  }
}
