/**
 * Where everything in a message is: predicates that place names, records and sections in a buffer,
 * and what dns_decode reads from a buffer laid out like that.
 */
module Layout {
  import opened Bytes
  import opened NameDecode
  import opened NameEncode
  import opened NameRoundTrip
  import opened Message

  // ---- Names as text ----

  function DotAt(t: Text): (k: nat)
    ensures k <= |t| && (forall i :: 0 <= i < k ==> t[i] != DOT) && (k < |t| ==> t[k] == DOT)
  {
    if t == [] || t[0] == DOT then 0 else 1 + DotAt(t[1..])
  }

  function Pieces(t: Text): (n: Name)
    ensures n != []
    decreases |t|
  {
    var k := DotAt(t);
    if k == |t| then [t] else [t[..k]] + Pieces(t[k + 1..])
  }

  /** The text cut at its dots. */
  function Labels(t: Text): Name {
    if t == [] then [] else Pieces(t)
  }

  /** A name as the round trips need it: labels of 1..63 bytes, no leading, trailing or doubled dot. */
  predicate IsName(t: Text) {
    WellFormed(Labels(t))
  }

  lemma {:induction false} JoinPieces(t: Text)
    ensures Join(Pieces(t)) == t
    decreases |t|
  {
    var k := DotAt(t);
    if k < |t| {
      JoinPieces(t[k + 1..]);
      JoinStep(t[..k], Pieces(t[k + 1..]));
      assert t == t[..k] + [DOT] + t[k + 1..];
    }
  }

  lemma JoinLabels(t: Text)
    ensures Join(Labels(t)) == t
  {
    JoinPieces(t);
  }

  /** The text t is spelled at p, and a reader ends up at e. */
  ghost predicate NameIs(b: seq<byte>, m: seq<Kind>, p: nat, e: nat, t: Text) {
    NameAt(b, m, p, Labels(t)) && Cursor(b, p) == e
  }

  lemma NameReads(b: seq<byte>, m: seq<Kind>, p: nat, e: nat, t: Text, size: nat)
    requires NameIs(b, m, p, e, t) && size > 1
    ensures Expand(b, p, [], size, 0) == if |t| < size - 1 then Some(t) else None
  {
    hide NameAt, Cursor, Expand, Labels, Join;
    NameDecodes(b, m, p, Labels(t), [], size, 0);
    JoinLabels(t);
    OntoNothing(Labels(t));
  }

  lemma OntoNothing(n: Name)
    ensures JoinOnto([], n) == Join(n)
  {
    assert [] + Join(n) == Join(n);
  }

  // ---- Records ----

  ghost predicate FieldIs(b: seq<byte>, p: nat, s: seq<byte>) {
    p + |s| <= |b| && b[p..p + |s|] == s
  }

  lemma SubField(b: seq<byte>, p: nat, s: seq<byte>, i: nat, j: nat)
    requires FieldIs(b, p, s) && i <= j <= |s|
    ensures b[p + i..p + j] == s[i..j]
  {
    forall k | 0 <= k < j - i ensures b[p + i..p + j][k] == s[i..j][k] {
      assert b[p..p + |s|][i + k] == s[i + k];
    }
  }

  ghost predicate NoName(m: seq<Kind>, lo: nat, hi: nat) {
    hi <= |m| && forall i :: lo <= i < hi ==> !InName(m[i])
  }

  ghost predicate QuestionAt(b: seq<byte>, m: seq<Kind>, p: nat, e: nat, q: Question) {
    e >= 4 && NameIs(b, m, p, e - 4, q.name) && FieldIs(b, e - 4, QFields(q)) && NoName(m, e - 4, e)
  }

  ghost predicate DataAt(b: seq<byte>, m: seq<Kind>, p: nat, e: nat, d: Rdata) {
    match d
    case Raw(data) => p <= e <= |b| && b[p..e] == data
    case Host(host) => NameIs(b, m, p, e, host)
    case Soa(mname, rname, _, _, _, _, _) =>
      && e >= 20 && NameIs(b, m, p, Cursor(b, p), mname) && NameIs(b, m, Cursor(b, p), e - 20, rname)
      && FieldIs(b, e - 20, SoaFields(d)) && NoName(m, e - 20, e)
    case Srv(_, _, _, target) => FieldIs(b, p, SrvFields(d)) && NoName(m, p, p + 6) && NameIs(b, m, p + 6, e, target)
  }

  ghost predicate ItemAt(b: seq<byte>, m: seq<Kind>, p: nat, e: nat, item: Item) {
    var q := Cursor(b, p);
    && |m| == |b| && q + 10 <= e <= |b| && e - (q + 10) < 0x1_0000 && NoName(m, q, q + 10)
    && match item
       case RR(rec) =>
         && NameIs(b, m, p, q, rec.name)
         && FieldIs(b, q, RrFields(rec.rtype, C_IN, rec.ttl)) && FieldIs(b, q + 8, ShortBytes(e - (q + 10)))
         && DataAt(b, m, q + 10, e, rec.data)
         && (rec.data.Raw? ==> NoName(m, q + 10, e))
       case OptRR(payload, option, opts) =>
         && NameIs(b, m, p, q, [])
         && FieldIs(b, q, RrFields(T_OPT, Payload(payload), option)) && FieldIs(b, q + 8, ShortBytes(e - (q + 10)))
         && b[q + 10..e] == OptsBytes(opts) && NoName(m, q + 10, e)
  }

  /** Where the record at p ends, by its own length field. */
  ghost function ItemEnd(b: seq<byte>, p: nat): nat {
    var q := Cursor(b, p);
    if q + 10 <= |b| then q + 10 + Short(b, q + 8) else q
  }

  ghost function QuestionEnd(b: seq<byte>, p: nat): nat {
    Cursor(b, p) + 4
  }

  ghost predicate QuestionsAt(b: seq<byte>, m: seq<Kind>, p: nat, e: nat, qs: seq<Question>)
    decreases |qs|
  {
    if qs == [] then p == e
    else QuestionAt(b, m, p, QuestionEnd(b, p), qs[0]) && QuestionsAt(b, m, QuestionEnd(b, p), e, qs[1..])
  }

  ghost predicate ItemsAt(b: seq<byte>, m: seq<Kind>, p: nat, e: nat, items: seq<Item>)
    decreases |items|
  {
    if items == [] then p == e
    else ItemAt(b, m, p, ItemEnd(b, p), items[0]) && ItemsAt(b, m, ItemEnd(b, p), e, items[1..])
  }

  lemma EndsAgree(b: seq<byte>, m: seq<Kind>, p: nat, e: nat, item: Item)
    requires ItemAt(b, m, p, e, item)
    ensures ItemEnd(b, p) == e
  {
    hide DataAt, NameIs, Cursor, OptsBytes, RrFields;
    ShortAt(b, Cursor(b, p) + 8, e - (Cursor(b, p) + 10));
  }

  // ---- What a caller may put into a record ----

  predicate OptOk(o: Opt) {
    match o
    case Ecs(family, source, scope, addr) =>
      family < 0x1_0000 && source <= 128 && scope < 256 && |addr| == EcsLen(source)
    case Keepalive(timeout) => 0 < timeout < 0x1_0000
  }

  predicate DataOk(rtype: nat, d: Rdata) {
    match d
    case Raw(data) =>
      && rtype !in {T_CNAME, T_PTR, T_NS, T_SOA, T_SRV, T_OPT, T_SVCB, T_HTTPS} && |data| < 0x1_0000
      && (rtype == T_A ==> |data| == 4) && (rtype == T_AAAA ==> |data| == 16)
    case Host(host) => (rtype == T_CNAME || rtype == T_PTR) && IsName(host)
    case Soa(mname, rname, serial, refresh, retry, expire, minimum) =>
      && rtype == T_SOA && IsName(mname) && IsName(rname)
      && serial < 0x1_0000_0000 && refresh < 0x1_0000_0000 && retry < 0x1_0000_0000
      && expire < 0x1_0000_0000 && minimum < 0x1_0000_0000
    case Srv(priority, weight, port, target) =>
      rtype == T_SRV && priority < 0x1_0000 && weight < 0x1_0000 && port < 0x1_0000 && IsName(target)
  }

  predicate ItemOk(item: Item) {
    match item
    case RR(rec) => IsName(rec.name) && rec.rtype < 0x1_0000 && rec.ttl < 0x1_0000_0000 && DataOk(rec.rtype, rec.data)
    case OptRR(payload, option, opts) =>
      payload < 0x1_0000 && option < 0x1_0000_0000 && forall i :: 0 <= i < |opts| ==> OptOk(opts[i])
  }

  // ---- What the reader accepts ----

  predicate DataReadable(rtype: nat, d: Rdata) {
    match d
    case Raw(data) => rtype == T_A || rtype == T_AAAA || |data| < 1024
    case Host(host) => |host| < MAX_CNAME_LEN - 1
    case Soa(mname, rname, _, _, _, _, _) => |mname| < MAX_CNAME_LEN - 2 && |rname| < MAX_CNAME_LEN - 2
    case Srv(_, _, _, target) => |target| < MAX_CNAME_LEN - 1
  }

  /** A TTL below 2^31, names within the reader's buffers, and no extended error code next to options. */
  predicate Readable(item: Item) {
    match item
    case RR(rec) => |rec.name| < MAX_CNAME_LEN - 1 && rec.ttl < 0x8000_0000 && DataReadable(rec.rtype, rec.data)
    case OptRR(_, option, opts) => option < 0x8000_0000 && (option < 0x1_0000 || opts == [])
  }

  /** The reader raises small payload sizes. */
  function Read(item: Item): Item {
    match item
    case RR(_) => item
    case OptRR(payload, option, opts) => OptRR(Payload(payload), option, opts)
  }

  lemma HeadReads(b: seq<byte>, m: seq<Kind>, p: nat, q: nat, t: Text, size: nat, fields: nat)
    requires NameIs(b, m, p, q, t) && size > 1 && q + fields <= |b|
    ensures DecodeHeadAt(b, p, size, fields) == if |t| < size - 1 then Some((t, q)) else None
  {
    hide NameAt, Cursor, Expand, Labels;
    NameReads(b, m, p, q, t, size);
  }

  lemma SoaReads(b: seq<byte>, q: nat, d: Rdata)
    requires DataOk(T_SOA, d) && d.Soa? && FieldIs(b, q, SoaFields(d))
    ensures Int(b, q) == d.serial && Int(b, q + 4) == d.refresh && Int(b, q + 8) == d.retry
    ensures Int(b, q + 12) == d.expire && Int(b, q + 16) == d.minimum
  {
    hide IntBytes, Int, Short, IsName;
    var s := SoaFields(d);
    SubField(b, q, s, 0, 4);
    SubField(b, q, s, 4, 8);
    SubField(b, q, s, 8, 12);
    SubField(b, q, s, 12, 16);
    SubField(b, q, s, 16, 20);
    IntAt(b, q, d.serial);
    IntAt(b, q + 4, d.refresh);
    IntAt(b, q + 8, d.retry);
    IntAt(b, q + 12, d.expire);
    IntAt(b, q + 16, d.minimum);
  }

  lemma SrvReads(b: seq<byte>, p: nat, d: Rdata)
    requires DataOk(T_SRV, d) && d.Srv? && FieldIs(b, p, SrvFields(d))
    ensures Short(b, p) == d.priority && Short(b, p + 2) == d.weight && Short(b, p + 4) == d.port
  {
    hide ShortBytes, Short, IsName;
    var s := SrvFields(d);
    SubField(b, p, s, 0, 2);
    SubField(b, p, s, 2, 4);
    SubField(b, p, s, 4, 6);
    ShortAt(b, p, d.priority);
    ShortAt(b, p + 2, d.weight);
    ShortAt(b, p + 4, d.port);
  }

  lemma RrReads(b: seq<byte>, q: nat, rtype: nat, rclass: nat, ttl: nat)
    requires FieldIs(b, q, RrFields(rtype, rclass, ttl))
    requires rtype < 0x1_0000 && rclass < 0x1_0000 && ttl < 0x1_0000_0000
    ensures Short(b, q) == rtype && Short(b, q + 2) == rclass && Int(b, q + 4) == ttl
  {
    hide ShortBytes, Short, Int, IntBytes;
    var s := RrFields(rtype, rclass, ttl);
    SubField(b, q, s, 0, 2);
    SubField(b, q, s, 2, 4);
    SubField(b, q, s, 4, 8);
    ShortAt(b, q, rtype);
    ShortAt(b, q + 2, rclass);
    IntAt(b, q + 4, ttl);
  }

  lemma QReads(b: seq<byte>, q: nat, question: Question)
    requires FieldIs(b, q, QFields(question)) && question.qtype < 0x1_0000 && question.qclass < 0x1_0000
    ensures Short(b, q) == question.qtype && Short(b, q + 2) == question.qclass
  {
    hide ShortBytes, Short;
    var s := QFields(question);
    assert b[q..q + 2] == s[0..2] && b[q + 2..q + 4] == s[2..4];
    ShortAt(b, q, question.qtype);
    ShortAt(b, q + 2, question.qclass);
  }

  lemma DataReads(b: seq<byte>, m: seq<Kind>, p: nat, e: nat, rtype: nat, d: Rdata)
    requires DataAt(b, m, p, e, d) && DataOk(rtype, d) && p <= e <= |b|
    ensures DecodeData(b, p, rtype, e - p) == if DataReadable(rtype, d) then Some((d, e)) else None
  {
    hide NameIs, Cursor, Short, Int, DecodeHeadAt, IsName, FieldIs, NoName, SoaFields, SrvFields;
    match d
    case Raw(data) =>
    case Host(host) =>
      HeadReads(b, m, p, e, host, MAX_CNAME_LEN, 0);
    case Soa(mname, rname, _, _, _, _, _) =>
      var q := Cursor(b, p);
      CursorInside(b, m, p, q, mname);
      HeadReads(b, m, p, q, mname, MAX_CNAME_LEN - 1, 0);
      HeadReads(b, m, q, e - 20, rname, MAX_CNAME_LEN - 1, 20);
      SoaReads(b, e - 20, d);
    case Srv(_, _, _, target) =>
      FieldInside(b, p, SrvFields(d));
      HeadReads(b, m, p + 6, e, target, MAX_CNAME_LEN, 0);
      SrvReads(b, p, d);
  }

  lemma FieldInside(b: seq<byte>, p: nat, s: seq<byte>)
    requires FieldIs(b, p, s)
    ensures p + |s| <= |b|
  {
  }

  lemma {:induction false} CursorInside'(b: seq<byte>, m: seq<Kind>, p: nat, n: Name)
    requires NameAt(b, m, p, n)
    ensures p < Cursor(b, p) <= |b|
    decreases |n|
  {
    if n != [] && b[p] < 0xC0 {
      CursorInside'(b, m, p + 1 + |n[0]|, n[1..]);
    }
  }

  lemma CursorInside(b: seq<byte>, m: seq<Kind>, p: nat, e: nat, t: Text)
    requires NameIs(b, m, p, e, t)
    ensures p < e <= |b|
  {
    hide NameAt, Cursor, Labels;
    CursorInside'(b, m, p, Labels(t));
  }

  // ---- Options ----

  lemma OptReads(b: seq<byte>, p: nat, o: Opt)
    requires OptOk(o) && FieldIs(b, p, OptBytes(o))
    ensures DecodeOpt(b, p) == Some(([o], p + |OptBytes(o)|))
  {
    hide ShortBytes, Short, FieldIs;
    FieldInside(b, p, OptBytes(o));
    var s := OptBytes(o);
    SubField(b, p, s, 0, 2);
    SubField(b, p, s, 2, 4);
    SubField(b, p, s, 4, 6);
    match o
    case Ecs(family, source, scope, addr) =>
      ShortAt(b, p, OPT_ECS);
      ShortAt(b, p + 2, 4 + |addr|);
      ShortAt(b, p + 4, family);
      SubField(b, p, s, 6, 8);
      assert b[p + 6] == b[p + 6..p + 8][0] == s[6] == source && b[p + 7] == b[p + 6..p + 8][1] == s[7] == scope;
      SubField(b, p, s, 8, 8 + |addr|);
      assert s[8..8 + |addr|] == addr;
    case Keepalive(timeout) =>
      ShortAt(b, p, OPT_KEEPALIVE);
      ShortAt(b, p + 2, 2);
      ShortAt(b, p + 4, timeout);
  }

  lemma {:induction false} OptsRead(b: seq<byte>, p: nat, opts: seq<Opt>)
    requires FieldIs(b, p, OptsBytes(opts)) && forall i :: 0 <= i < |opts| ==> OptOk(opts[i])
    ensures DecodeOpts(b, p, p + |OptsBytes(opts)|) == Some((opts, p + |OptsBytes(opts)|))
    decreases |opts|
  {
    hide DecodeOpt, OptBytes, OptOk;
    if opts != [] {
      var s, first := OptsBytes(opts), OptBytes(opts[0]);
      assert b[p..p + |first|] == s[..|first|] == first;
      assert b[p + |first|..p + |s|] == s[|first|..] == OptsBytes(opts[1..]);
      OptReads(b, p, opts[0]);
      OptsRead(b, p + |first|, opts[1..]);
      assert opts == [opts[0]] + opts[1..];
    }
  }

  lemma OptsEmpty(opts: seq<Opt>)
    ensures |OptsBytes(opts)| == 0 <==> opts == []
  {
  }

  // ---- Items and sections ----

  lemma RecordReads(b: seq<byte>, m: seq<Kind>, p: nat, e: nat, rec: Record)
    requires ItemAt(b, m, p, e, RR(rec)) && ItemOk(RR(rec))
    ensures DecodeItem(b, p) == if Readable(RR(rec)) then Some((RR(rec), e)) else None
  {
    hide NameIs, Cursor, Short, Int, DecodeHeadAt, IsName, FieldIs, NoName, DataAt, RrFields, DecodeData, DataReadable,
      ShortBytes, DecodeOpts;
    var q := Cursor(b, p);
    HeadReads(b, m, p, q, rec.name, MAX_CNAME_LEN, 10);
    RrReads(b, q, rec.rtype, C_IN, rec.ttl);
    LenReads(b, q + 8, e - (q + 10));
    DataTyped(rec.rtype, rec.data);
    DataReads(b, m, q + 10, e, rec.rtype, rec.data);
  }

  lemma DataTyped(rtype: nat, d: Rdata)
    requires DataOk(rtype, d)
    ensures rtype != T_OPT
  {
  }

  lemma LenReads(b: seq<byte>, p: nat, len: nat)
    requires FieldIs(b, p, ShortBytes(len)) && len < 0x1_0000
    ensures p + 2 <= |b| && Short(b, p) == len
  {
    ShortAt(b, p, len);
  }

  lemma OptRecordReads(b: seq<byte>, m: seq<Kind>, p: nat, e: nat, item: Item)
    requires item.OptRR? && ItemAt(b, m, p, e, item) && ItemOk(item)
    ensures DecodeItem(b, p) == if Readable(item) then Some((Read(item), e)) else None
  {
    hide NameIs, Cursor, Short, Int, DecodeHeadAt, OptOk, NoName, RrFields, DecodeData, ShortBytes, DecodeOpts, OptsBytes;
    var q := Cursor(b, p);
    HeadReads(b, m, p, q, [], MAX_CNAME_LEN, 10);
    RrReads(b, q, T_OPT, Payload(item.payload), item.option);
    LenReads(b, q + 8, e - (q + 10));
    OptsRead(b, q + 10, item.opts);
    OptsEmpty(item.opts);
  }

  lemma ItemReads(b: seq<byte>, m: seq<Kind>, p: nat, e: nat, item: Item)
    requires ItemAt(b, m, p, e, item) && ItemOk(item)
    ensures DecodeItem(b, p) == if Readable(item) then Some((Read(item), e)) else None
  {
    hide ItemAt, ItemOk, Readable, DecodeItem;
    match item
    case RR(rec) => RecordReads(b, m, p, e, rec);
    case OptRR(_, _, _) => OptRecordReads(b, m, p, e, item);
  }

  function ReadAll(items: seq<Item>): (r: seq<Item>)
    ensures |r| == |items| && forall i :: 0 <= i < |items| ==> r[i] == Read(items[i])
  {
    seq(|items|, i requires 0 <= i < |items| => Read(items[i]))
  }

  predicate AllOk(items: seq<Item>) {
    forall i :: 0 <= i < |items| ==> ItemOk(items[i])
  }

  predicate AllReadable(items: seq<Item>) {
    forall i :: 0 <= i < |items| ==> Readable(items[i])
  }

  /** A laid-out section is read back exactly when every record of it is readable. */
  lemma {:induction false} ItemsRead(b: seq<byte>, m: seq<Kind>, p: nat, e: nat, items: seq<Item>)
    requires ItemsAt(b, m, p, e, items) && AllOk(items)
    ensures DecodeItems(b, p, |items|) == if AllReadable(items) then Some((ReadAll(items), e)) else None
    decreases |items|
  {
    hide ItemAt, ItemOk, Readable, DecodeItem, ItemEnd, Read;
    if items != [] {
      ItemReads(b, m, p, ItemEnd(b, p), items[0]);
      ItemsRead(b, m, ItemEnd(b, p), e, items[1..]);
      assert Readable(items[0]) && AllReadable(items[1..]) <==> AllReadable(items);
      assert ReadAll(items) == [Read(items[0])] + ReadAll(items[1..]);
    }
  }

  predicate QuestionOk(q: Question) {
    IsName(q.name) && q.qtype < 0x1_0000 && q.qclass < 0x1_0000
  }

  predicate QuestionReadable(q: Question) {
    |q.name| < MAX_CNAME_LEN - 1
  }

  lemma QuestionReads(b: seq<byte>, m: seq<Kind>, p: nat, e: nat, q: Question)
    requires QuestionAt(b, m, p, e, q) && QuestionOk(q)
    ensures DecodeQuestion(b, p) == if QuestionReadable(q) then Some((q, e)) else None
  {
    hide NameIs, Cursor, Short, DecodeHeadAt, IsName, NoName, QFields;
    HeadReads(b, m, p, e - 4, q.name, MAX_CNAME_LEN, 4);
    QReads(b, e - 4, q);
  }

  lemma {:induction false} QuestionsRead(b: seq<byte>, m: seq<Kind>, p: nat, e: nat, qs: seq<Question>)
    requires QuestionsAt(b, m, p, e, qs) && forall i :: 0 <= i < |qs| ==> QuestionOk(qs[i])
    ensures DecodeQuestions(b, p, |qs|)
            == if forall i :: 0 <= i < |qs| ==> QuestionReadable(qs[i]) then Some((qs, e)) else None
    decreases |qs|
  {
    hide QuestionAt, QuestionOk, QuestionReadable, DecodeQuestion, QuestionEnd;
    if qs != [] {
      QuestionReads(b, m, p, QuestionEnd(b, p), qs[0]);
      QuestionsRead(b, m, QuestionEnd(b, p), e, qs[1..]);
      assert qs == [qs[0]] + qs[1..];
    }
  }
}
