/** dns_packet_update on a laid-out message is decode, modify, encode. */
module UpdateTheorems {
  import opened Bytes
  import opened NameDecode
  import opened NameEncode
  import opened NameRoundTrip
  import opened NameTheorems
  import opened Message
  import opened Layout
  import opened MessageLayout
  import opened MessageTheorems
  import opened Update
  import opened UpdateNames

  // ---- Equal up to case ----

  predicate DataLike(a: Rdata, b: Rdata) {
    match b
    case Raw(_) => a == b
    case Host(host) => a.Host? && CaseEq(a.host, host)
    case Soa(mname, rname, serial, refresh, retry, expire, minimum) =>
      && a.Soa? && CaseEq(a.mname, mname) && CaseEq(a.rname, rname)
      && a == Soa(a.mname, a.rname, serial, refresh, retry, expire, minimum)
    case Srv(priority, weight, port, target) =>
      a.Srv? && CaseEq(a.target, target) && a == Srv(priority, weight, port, a.target)
  }

  predicate RecordLike(a: Record, b: Record) {
    CaseEq(a.name, b.name) && a.rtype == b.rtype && a.ttl == b.ttl && DataLike(a.data, b.data)
  }

  predicate ItemLike(a: Item, b: Item) {
    match b
    case RR(rec) => a.RR? && RecordLike(a.rec, rec)
    case OptRR(_, _, _) => a == b
  }

  predicate QuestionLike(a: Question, b: Question) {
    CaseEq(a.name, b.name) && a.qtype == b.qtype && a.qclass == b.qclass
  }

  predicate ItemsLike(a: seq<Item>, b: seq<Item>) {
    |a| == |b| && forall i :: 0 <= i < |a| ==> ItemLike(a[i], b[i])
  }

  predicate QuestionsLike(a: seq<Question>, b: seq<Question>) {
    |a| == |b| && forall i :: 0 <= i < |a| ==> QuestionLike(a[i], b[i])
  }

  lemma CaseEqTrans(a: Text, b: Text, c: Text)
    requires CaseEq(a, b) && CaseEq(b, c)
    ensures CaseEq(a, c)
  {
  }

  lemma CaseEqSelf(a: Text)
    ensures CaseEq(a, a)
  {
  }

  lemma DataLikeTrans(a: Rdata, b: Rdata, c: Rdata)
    requires DataLike(a, b) && DataLike(b, c)
    ensures DataLike(a, c)
  {
    hide CaseEq;
    match c
    case Raw(_) =>
    case Host(_) => CaseEqTrans(a.host, b.host, c.host);
    case Soa(_, _, _, _, _, _, _) =>
      CaseEqTrans(a.mname, b.mname, c.mname);
      CaseEqTrans(a.rname, b.rname, c.rname);
    case Srv(_, _, _, _) => CaseEqTrans(a.target, b.target, c.target);
  }

  lemma ItemLikeTrans(a: Item, b: Item, c: Item)
    requires ItemLike(a, b) && ItemLike(b, c)
    ensures ItemLike(a, c)
  {
    hide CaseEq, DataLike;
    if c.RR? {
      CaseEqTrans(a.rec.name, b.rec.name, c.rec.name);
      DataLikeTrans(a.rec.data, b.rec.data, c.rec.data);
    }
  }

  lemma ItemsLikeTrans(a: seq<Item>, b: seq<Item>, c: seq<Item>)
    requires ItemsLike(a, b) && ItemsLike(b, c)
    ensures ItemsLike(a, c)
  {
    hide ItemLike;
    forall i | 0 <= i < |a| ensures ItemLike(a[i], c[i]) {
      ItemLikeTrans(a[i], b[i], c[i]);
    }
  }

  // ---- Recased layouts ----

  lemma FieldRecased(b: seq<byte>, b': seq<byte>, m: seq<Kind>, p: nat, s: seq<byte>)
    requires FieldIs(b, p, s) && Recased(b, b', m) && NoName(m, p, p + |s|)
    ensures FieldIs(b', p, s)
  {
    assert b'[p..p + |s|] == b[p..p + |s|];
  }

  lemma DataRecased(b: seq<byte>, b': seq<byte>, m: seq<Kind>, p: nat, e: nat, d: Rdata) returns (d': Rdata)
    requires DataAt(b, m, p, e, d) && Recased(b, b', m) && (d.Raw? ==> NoName(m, p, e))
    ensures DataAt(b', m, p, e, d') && DataLike(d', d)
  {
    hide NameIs, FieldIs, NoName, CaseEq, Cursor, Recased, SoaFields, SrvFields;
    match d
    case Raw(data) =>
      d' := d;
      RawRecased(b, b', m, p, e);
    case Host(host) =>
      var host' := NameIsRecased(b, b', m, p, e, host);
      d' := Host(host');
    case Soa(mname, rname, serial, refresh, retry, expire, minimum) =>
      var q := Cursor(b, p);
      var mname' := NameIsRecased(b, b', m, p, q, mname);
      var rname' := NameIsRecased(b, b', m, q, e - 20, rname);
      CursorIs(b', m, p, q, mname');
      d' := Soa(mname', rname', serial, refresh, retry, expire, minimum);
      SoaFieldsSame(d, d');
      FieldRecased(b, b', m, e - 20, SoaFields(d));
    case Srv(priority, weight, port, target) =>
      var target' := NameIsRecased(b, b', m, p + 6, e, target);
      d' := Srv(priority, weight, port, target');
      SrvFieldsSame(d, d');
      FieldRecased(b, b', m, p, SrvFields(d));
  }

  lemma RawRecased(b: seq<byte>, b': seq<byte>, m: seq<Kind>, p: nat, e: nat)
    requires p <= e <= |b| && Recased(b, b', m) && NoName(m, p, e)
    ensures |b'| == |b| && b'[p..e] == b[p..e]
  {
  }

  lemma SoaFieldsSame(d: Rdata, d': Rdata)
    requires d.Soa? && d'.Soa? && d' == Soa(d'.mname, d'.rname, d.serial, d.refresh, d.retry, d.expire, d.minimum)
    ensures SoaFields(d') == SoaFields(d)
  {
  }

  lemma SrvFieldsSame(d: Rdata, d': Rdata)
    requires d.Srv? && d'.Srv? && d' == Srv(d.priority, d.weight, d.port, d'.target)
    ensures SrvFields(d') == SrvFields(d)
  {
  }

  lemma RecordRecased(b: seq<byte>, b': seq<byte>, m: seq<Kind>, p: nat, e: nat, rec: Record) returns (rec': Record)
    requires ItemAt(b, m, p, e, RR(rec)) && Recased(b, b', m)
    ensures ItemAt(b', m, p, e, RR(rec')) && RecordLike(rec', rec)
  {
    hide NameIs, FieldIs, NoName, CaseEq, Cursor, Recased, DataAt, DataLike, RrFields, ShortBytes;
    var q := Cursor(b, p);
    RecasedLength(b, b', m);
    var name' := NameIsRecased(b, b', m, p, q, rec.name);
    CursorIs(b', m, p, q, name');
    var d' := DataRecased(b, b', m, q + 10, e, rec.data);
    rec' := Record(name', rec.rtype, rec.ttl, d');
    NoNameSplit(m, q, q + 8, q + 10);
    FieldRecased(b, b', m, q, RrFields(rec.rtype, C_IN, rec.ttl));
    FieldRecased(b, b', m, q + 8, ShortBytes(e - (q + 10)));
    LikeRaw(d', rec.data);
  }

  lemma NoNameSplit(m: seq<Kind>, lo: nat, mid: nat, hi: nat)
    requires NoName(m, lo, hi) && lo <= mid <= hi
    ensures NoName(m, lo, mid) && NoName(m, mid, hi)
  {
  }

  lemma LikeRaw(a: Rdata, b: Rdata)
    requires DataLike(a, b)
    ensures a.Raw? ==> b.Raw?
  {
  }

  lemma OptRecased(b: seq<byte>, b': seq<byte>, m: seq<Kind>, p: nat, e: nat, item: Item)
    requires item.OptRR? && ItemAt(b, m, p, e, item) && Recased(b, b', m)
    ensures ItemAt(b', m, p, e, item)
  {
    hide NameIs, FieldIs, NoName, CaseEq, Cursor, Recased, RrFields, ShortBytes, OptsBytes;
    var q := Cursor(b, p);
    RecasedLength(b, b', m);
    var name' := NameIsRecased(b, b', m, p, q, []);
    CaseEqLength(name', []);
    CursorIs(b', m, p, q, []);
    NoNameSplit(m, q, q + 8, q + 10);
    FieldRecased(b, b', m, q, RrFields(T_OPT, Payload(item.payload), item.option));
    FieldRecased(b, b', m, q + 8, ShortBytes(e - (q + 10)));
    RawRecased(b, b', m, q + 10, e);
  }

  lemma ItemRecased(b: seq<byte>, b': seq<byte>, m: seq<Kind>, p: nat, e: nat, item: Item) returns (item': Item)
    requires ItemAt(b, m, p, e, item) && Recased(b, b', m)
    ensures ItemAt(b', m, p, e, item') && ItemEnd(b', p) == e && ItemLike(item', item)
  {
    hide ItemAt, Recased, RecordLike, ItemEnd;
    match item {
      case RR(rec) =>
        var rec' := RecordRecased(b, b', m, p, e, rec);
        item' := RR(rec');
      case OptRR(_, _, _) =>
        OptRecased(b, b', m, p, e, item);
        item' := item;
    }
    EndsAgree(b', m, p, e, item');
  }

  lemma {:induction false} ItemsRecased(b: seq<byte>, b': seq<byte>, m: seq<Kind>, p: nat, e: nat, items: seq<Item>) returns (items': seq<Item>)
    requires ItemsAt(b, m, p, e, items) && Recased(b, b', m)
    ensures ItemsAt(b', m, p, e, items') && ItemsLike(items', items)
    decreases |items|
  {
    hide ItemAt, Recased, ItemEnd, ItemLike;
    if items == [] {
      items' := [];
    } else {
      var first := ItemRecased(b, b', m, p, ItemEnd(b, p), items[0]);
      var rest := ItemsRecased(b, b', m, ItemEnd(b, p), e, items[1..]);
      items' := [first] + rest;
      assert items'[1..] == rest;
    }
  }

  lemma QuestionRecased(b: seq<byte>, b': seq<byte>, m: seq<Kind>, p: nat, e: nat, q: Question) returns (q': Question)
    requires QuestionAt(b, m, p, e, q) && Recased(b, b', m)
    ensures QuestionAt(b', m, p, e, q') && QuestionEnd(b', p) == e && QuestionLike(q', q)
  {
    hide NameIs, FieldIs, NoName, CaseEq, Cursor, Recased, QFields;
    var name' := NameIsRecased(b, b', m, p, e - 4, q.name);
    CursorIs(b', m, p, e - 4, name');
    q' := Question(name', q.qtype, q.qclass);
    FieldRecased(b, b', m, e - 4, QFields(q));
    QFieldsSame(q, q');
  }

  lemma QFieldsSame(q: Question, q': Question)
    requires q'.qtype == q.qtype && q'.qclass == q.qclass
    ensures QFields(q') == QFields(q)
  {
  }

  lemma {:induction false} QuestionsRecased(b: seq<byte>, b': seq<byte>, m: seq<Kind>, p: nat, e: nat, qs: seq<Question>) returns (qs': seq<Question>)
    requires QuestionsAt(b, m, p, e, qs) && Recased(b, b', m)
    ensures QuestionsAt(b', m, p, e, qs') && QuestionsLike(qs', qs)
    decreases |qs|
  {
    hide QuestionAt, Recased, QuestionEnd, QuestionLike;
    if qs == [] {
      qs' := [];
    } else {
      var first := QuestionRecased(b, b', m, p, QuestionEnd(b, p), qs[0]);
      var rest := QuestionsRecased(b, b', m, QuestionEnd(b, p), e, qs[1..]);
      qs' := [first] + rest;
      assert qs'[1..] == rest;
    }
  }

  // ---- One owner name ----

  predicate Matches(t: Text, param: Param) {
    param.query.Some? && CaseEq(t, param.query.value)
  }

  /** Names spelled as the query stay spelled as the query. */
  ghost predicate KeepsQuery(b: seq<byte>, b': seq<byte>, m: seq<Kind>, param: Param) {
    param.query.Some? ==> forall p, e :: NameIs(b, m, p, e, param.query.value) ==> NameIs(b', m, p, e, param.query.value)
  }

  lemma KeepsQueryTrans(b: seq<byte>, b1: seq<byte>, b2: seq<byte>, m: seq<Kind>, param: Param)
    requires KeepsQuery(b, b1, m, param) && KeepsQuery(b1, b2, m, param)
    ensures KeepsQuery(b, b2, m, param)
  {
    hide NameIs;
  }

  lemma OwnerStarts(b: seq<byte>, m: seq<Kind>, p: nat, e: nat, t: Text, query: Text)
    requires NameIs(b, m, p, e, t) && CaseEq(t, query)
    ensures AtLabels(b, m, p, Labels(t), Labels(query), 0, 0, 0, query)
  {
    hide NameAt, Cursor, Labels, Join, CaseOf;
    CaseEqFlip(t, query);
    CaseKeepsLabels(query, t);
    JoinLabels(query);
    LabelsEmpty(query);
    assert query[0..] == query;
  }

  lemma CaseEqFlip(a: Text, b: Text)
    requires CaseEq(a, b)
    ensures CaseEq(b, a)
  {
  }

  lemma {:induction false} LabelsEmpty(t: Text)
    ensures Labels(t) == [] <==> t == []
  {
    hide Pieces;
  }

  lemma OwnerUpdated(b: seq<byte>, m: seq<Kind>, p: nat, e: nat, t: Text, param: Param)
    requires NameIs(b, m, p, e, t)
    ensures var r := UpdateOwner(b, p, t, param);
            && r.ok && Recased(b, r.b, m) && KeepsQuery(b, r.b, m, param)
            && (Matches(t, param) ==> NameIs(r.b, m, p, e, param.query.value))
  {
    hide NameAt, Cursor, Labels, CaseEq, UpdateLoop, AtLabels, Recased;
    var r := UpdateOwner(b, p, t, param);
    if Matches(t, param) {
      var query := param.query.value;
      OwnerStarts(b, m, p, e, t, query);
      LoopRecases(b, m, p, Labels(t), Labels(query), 0, 0, 0, query);
      LoopSpells(b, m, p, Labels(t), Labels(query), 0, 0, 0, query);
      forall p1, e1 | NameIs(b, m, p1, e1, query) ensures NameIs(r.b, m, p1, e1, query) {
        SuffixSelf(Labels(query));
        LoopKeepsTails(b, m, p, Labels(t), Labels(query), 0, 0, 0, query, Labels(query), p1, Labels(query));
        var n' := NameRecased(b, r.b, m, p1, Labels(query));
      }
    } else {
      NameInside(b, m, p, Labels(t));
      NameMarked(b, m, p, Labels(t));
      RecasedNothing(b, m);
    }
  }

  lemma SuffixSelf(n: Name)
    ensures IsSuffix(n, n)
  {
  }

  lemma RecasedNothing(b: seq<byte>, m: seq<Kind>)
    requires |m| == |b|
    ensures Recased(b, b, m)
  {
  }

  // ---- What a step leaves alone ----

  /** b' is b with label text recased, and with other bytes changed inside [lo, hi) only. */
  ghost predicate Patched(b: seq<byte>, b': seq<byte>, m: seq<Kind>, lo: nat, hi: nat) {
    && |b'| == |b| == |m|
    && forall i :: 0 <= i < |b| ==>
         b'[i] == b[i] || (m[i] == Char && Lower(b'[i]) == Lower(b[i])) || (lo <= i < hi && !InName(m[i]))
  }

  lemma PatchedTrans(b: seq<byte>, b1: seq<byte>, b2: seq<byte>, m: seq<Kind>, lo: nat, mid: nat, hi: nat)
    requires Patched(b, b1, m, lo, mid) && Patched(b1, b2, m, mid, hi) && lo <= mid <= hi
    ensures Patched(b, b2, m, lo, hi)
  {
  }

  lemma RecasedIsPatched(b: seq<byte>, b': seq<byte>, m: seq<Kind>, lo: nat, hi: nat)
    requires Recased(b, b', m)
    ensures Patched(b, b', m, lo, hi)
  {
  }

  /** A patch is a recasing followed by changes to bytes of no name. */
  lemma PatchedSplits(b: seq<byte>, b': seq<byte>, m: seq<Kind>, lo: nat, hi: nat) returns (b1: seq<byte>)
    requires Patched(b, b', m, lo, hi)
    ensures Recased(b, b1, m) && Keeps(b1, m, b', m)
    ensures forall p: nat, e: nat :: e <= |b| && (e <= lo || hi <= p) ==> Same(b1, m, b', m, p, e)
  {
    b1 := seq(|b|, i requires 0 <= i < |b| => if InName(m[i]) then b'[i] else b[i]);
  }

  lemma ItemPatched(b: seq<byte>, b': seq<byte>, m: seq<Kind>, lo: nat, hi: nat, p: nat, e: nat, item: Item) returns (item': Item)
    requires ItemAt(b, m, p, e, item) && Patched(b, b', m, lo, hi) && (e <= lo || hi <= p)
    ensures ItemAt(b', m, p, e, item') && ItemEnd(b', p) == e && ItemLike(item', item)
  {
    hide ItemAt, Patched, Recased, Keeps, Same, ItemEnd, ItemLike;
    ItemForward(b, m, p, e, item);
    var b1 := PatchedSplits(b, b', m, lo, hi);
    item' := ItemRecased(b, b1, m, p, e, item);
    ItemKept(b1, m, b', m, p, e, item');
  }

  lemma {:induction false} ItemsPatched(b: seq<byte>, b': seq<byte>, m: seq<Kind>, lo: nat, hi: nat, p: nat, e: nat, items: seq<Item>) returns (items': seq<Item>)
    requires ItemsAt(b, m, p, e, items) && Patched(b, b', m, lo, hi) && hi <= p
    ensures ItemsAt(b', m, p, e, items') && ItemsLike(items', items)
    decreases |items|
  {
    hide ItemAt, Patched, ItemEnd, ItemLike;
    if items == [] {
      items' := [];
    } else {
      var q := ItemEnd(b, p);
      ItemForward(b, m, p, q, items[0]);
      var first := ItemPatched(b, b', m, lo, hi, p, q, items[0]);
      var rest := ItemsPatched(b, b', m, lo, hi, q, e, items[1..]);
      items' := [first] + rest;
      assert items'[1..] == rest;
    }
  }

  lemma {:induction false} QuestionsPatched(b: seq<byte>, b': seq<byte>, m: seq<Kind>, lo: nat, hi: nat, p: nat, e: nat, qs: seq<Question>) returns (qs': seq<Question>)
    requires QuestionsAt(b, m, p, e, qs) && Patched(b, b', m, lo, hi) && e <= lo && e <= |b|
    ensures QuestionsAt(b', m, p, e, qs') && QuestionsLike(qs', qs)
  {
    hide QuestionsAt, Patched, Recased, Keeps, Same, QuestionLike;
    var b1 := PatchedSplits(b, b', m, lo, hi);
    qs' := QuestionsRecased(b, b1, m, p, e, qs);
    QuestionsKept(b1, m, b', m, p, e, qs');
  }

  lemma KeepsIsKeepsQuery(b: seq<byte>, b': seq<byte>, m: seq<Kind>, param: Param)
    requires Keeps(b, m, b', m)
    ensures KeepsQuery(b, b', m, param)
  {
    hide NameIs, Keeps;
    if param.query.Some? {
      forall p, e | NameIs(b, m, p, e, param.query.value) ensures NameIs(b', m, p, e, param.query.value) {
        NameIsKept(b, m, b', m, p, e, param.query.value);
      }
    }
  }

  lemma NameIsUnique(b: seq<byte>, m: seq<Kind>, p: nat, e: nat, t: Text, e': nat, t': Text)
    requires NameIs(b, m, p, e, t) && NameIs(b, m, p, e', t')
    ensures t == t' && e == e'
  {
    hide NameAt, Labels, Cursor;
    NameUnique(b, m, p, Labels(t), Labels(t'));
    JoinLabels(t);
    JoinLabels(t');
  }

  // ---- One record ----

  function Owner(item: Item): Text {
    if item.RR? then item.rec.name else []
  }

  /** The part of being readable that dns_packet_update depends on. */
  predicate Updatable(item: Item) {
    |Owner(item)| < MAX_CNAME_LEN - 1 && (if item.RR? then item.rec.ttl else item.option) < 0x8000_0000
  }

  function WithTtl(item: Item, param: Param): Item {
    if item.RR? && param.ipTtl >= 0 then RR(item.rec.(ttl := param.ipTtl)) else item
  }

  /** The fixed fields of a record, whichever kind it is. */
  lemma ItemFields(b: seq<byte>, m: seq<Kind>, p: nat, e: nat, item: Item)
    requires ItemAt(b, m, p, e, item) && ItemOk(item)
    ensures var q := Cursor(b, p);
            && p < q && q + 10 <= e <= |b| == |m| && NameIs(b, m, p, q, Owner(item)) && NoName(m, q, q + 10)
            && Short(b, q + 8) == e - (q + 10)
            && (Short(b, q) == T_OPT <==> item.OptRR?)
            && Int(b, q + 4) == if item.RR? then item.rec.ttl else item.option
  {
    hide NameIs, FieldIs, NoName, Cursor, DataAt, RrFields, ShortBytes, OptsBytes, Short, Int, DataOk, IsName, OptOk;
    var q := Cursor(b, p);
    CursorInside(b, m, p, q, Owner(item));
    LenReads(b, q + 8, e - (q + 10));
    match item
    case RR(rec) =>
      RrReads(b, q, rec.rtype, C_IN, rec.ttl);
      DataTyped(rec.rtype, rec.data);
    case OptRR(payload, option, opts) =>
      RrReads(b, q, T_OPT, Payload(payload), option);
  }

  /** The TTL field written over. */
  lemma TtlWritten(b: seq<byte>, m: seq<Kind>, p: nat, e: nat, rec: Record, ttl: nat)
    requires ItemAt(b, m, p, e, RR(rec))
    ensures var q := Cursor(b, p);
            && q + 10 <= e <= |b| == |m|
            && var b' := Write(b, q + 4, IntBytes(ttl));
               && ItemAt(b', m, p, e, RR(rec.(ttl := ttl))) && Keeps(b, m, b', m)
  {
    hide NameIs, ShortBytes, Short, Int, IntBytes, Cursor, FieldIs, NoName, DataAt, RrFields, Keeps, Same, Write;
    var q := Cursor(b, p);
    var b' := Write(b, q + 4, IntBytes(ttl));
    TtlSpares(b, m, q, ttl);
    NameIsKept(b, m, b', m, p, q, rec.name);
    CursorIs(b', m, p, q, rec.name);
    TtlField(b, q, rec.rtype, rec.ttl, ttl);
    FieldKept(b, m, b', m, q + 8, |b|, q + 8, ShortBytes(e - (q + 10)));
    SameInside(b, m, b', m, q + 8, |b|, q + 10);
    SameShorter(b, m, b', m, q + 10, e);
    DataKept(b, m, b', m, q + 10, e, rec.data);
  }

  lemma TtlSpares(b: seq<byte>, m: seq<Kind>, q: nat, ttl: nat)
    requires q + 10 <= |b| == |m| && NoName(m, q, q + 10)
    ensures var b' := Write(b, q + 4, IntBytes(ttl));
            |b'| == |b| && Keeps(b, m, b', m) && Same(b, m, b', m, q + 8, |b|)
  {
    hide IntBytes, Keeps;
    WriteKeeps(b, m, q + 4, IntBytes(ttl));
  }

  lemma TtlField(b: seq<byte>, q: nat, rtype: nat, ttl: nat, ttl': nat)
    requires FieldIs(b, q, RrFields(rtype, C_IN, ttl))
    ensures FieldIs(Write(b, q + 4, IntBytes(ttl')), q, RrFields(rtype, C_IN, ttl'))
  {
    hide ShortBytes, IntBytes;
    var b' := Write(b, q + 4, IntBytes(ttl'));
    var head := ShortBytes(rtype) + ShortBytes(C_IN);
    HeadField(b, q, head, IntBytes(ttl));
    WriteSpares(b, q + 4, IntBytes(ttl'), q, q + 4);
    assert b'[q..q + 8] == b'[q..q + 4] + b'[q + 4..q + 8];
  }

  lemma ItemUpdated(b: seq<byte>, m: seq<Kind>, p: nat, e: nat, item: Item, param: Param) returns (item': Item)
    requires ItemAt(b, m, p, e, item) && ItemOk(item) && Updatable(item)
    ensures var (u, next) := UpdateItem(b, p, param);
            && u.ok && next == e && Patched(b, u.b, m, p, e) && KeepsQuery(b, u.b, m, param)
            && ItemAt(u.b, m, p, e, item') && ItemLike(item', WithTtl(item, param))
            && (Matches(Owner(item), param) ==> NameIs(u.b, m, p, Cursor(b, p), param.query.value))
  {
    hide NameIs, NoName, Cursor, ItemAt, ItemOk, Recased, KeepsQuery, CaseEq, Short, Int, UpdateOwner, DecodeHeadAt, IntBytes,
      RecordLike, Keeps, Patched;
    var q := Cursor(b, p);
    ItemFields(b, m, p, e, item);
    HeadReads(b, m, p, q, Owner(item), MAX_CNAME_LEN, 10);
    OwnerUpdated(b, m, p, q, Owner(item), param);
    var b1 := UpdateOwner(b, p, Owner(item), param).b;
    var item1 := ItemRecased(b, b1, m, p, e, item);
    RecasedIsPatched(b, b1, m, p, e);
    if item.RR? && param.ipTtl >= 0 {
      TtlWritten(b1, m, p, e, item1.rec, param.ipTtl);
      CursorSame(b, b1, m, p, q, Owner(item));
      item' := RR(item1.rec.(ttl := param.ipTtl));
      var b2 := Write(b1, q + 4, IntBytes(param.ipTtl));
      TtlPatched(b, b1, b2, m, p, e, q, IntBytes(param.ipTtl));
      KeepsIsKeepsQuery(b1, b2, m, param);
      KeepsQueryTrans(b, b1, b2, m, param);
      LikeWithTtl(item1.rec, item.rec, param.ipTtl);
      if Matches(Owner(item), param) {
        NameIsKept(b1, m, b2, m, p, q, param.query.value);
      }
    } else {
      item' := item1;
    }
  }

  lemma CursorSame(b: seq<byte>, b': seq<byte>, m: seq<Kind>, p: nat, q: nat, t: Text)
    requires NameIs(b, m, p, q, t) && Recased(b, b', m)
    ensures Cursor(b', p) == q
  {
    hide NameIs, Cursor, Recased;
    var t' := NameIsRecased(b, b', m, p, q, t);
    CursorIs(b', m, p, q, t');
  }

  lemma TtlPatched(b: seq<byte>, b1: seq<byte>, b2: seq<byte>, m: seq<Kind>, p: nat, e: nat, q: nat, s: seq<byte>)
    requires Recased(b, b1, m) && p < q && q + 10 <= e <= |b| && NoName(m, q, q + 10) && |s| == 4 && b2 == Write(b1, q + 4, s)
    ensures Patched(b, b2, m, p, e)
  {
  }

  lemma LikeWithTtl(a: Record, b: Record, ttl: nat)
    requires RecordLike(a, b)
    ensures RecordLike(a.(ttl := ttl), b.(ttl := ttl))
  {
  }

  lemma QuestionUpdated(b: seq<byte>, m: seq<Kind>, p: nat, e: nat, q: Question, param: Param) returns (q': Question)
    requires QuestionAt(b, m, p, e, q) && QuestionReadable(q)
    ensures var (u, next) := UpdateQuestion(b, p, param);
            && u.ok && next == e >= 4 && Recased(b, u.b, m) && KeepsQuery(b, u.b, m, param)
            && QuestionAt(u.b, m, p, e, q') && QuestionEnd(u.b, p) == e && QuestionLike(q', q)
            && (Matches(q.name, param) ==> NameIs(u.b, m, p, e - 4, param.query.value))
  {
    hide NameIs, NoName, Cursor, Recased, KeepsQuery, Matches, UpdateOwner, DecodeHeadAt, QFields, QuestionLike, QuestionEnd;
    CursorInside(b, m, p, e - 4, q.name);
    HeadReads(b, m, p, e - 4, q.name, MAX_CNAME_LEN, 4);
    OwnerUpdated(b, m, p, e - 4, q.name, param);
    q' := QuestionRecased(b, UpdateOwner(b, p, q.name, param).b, m, p, e, q);
  }

  // ---- Sections ----

  function WithTtls(items: seq<Item>, param: Param): (r: seq<Item>)
    ensures |r| == |items| && forall i :: 0 <= i < |items| ==> r[i] == WithTtl(items[i], param)
  {
    seq(|items|, i requires 0 <= i < |items| => WithTtl(items[i], param))
  }

  predicate AllUpdatable(items: seq<Item>) {
    forall i :: 0 <= i < |items| ==> Updatable(items[i])
  }

  /** Every owner that matched the query is now spelled as the query. */
  predicate Respelled(items: seq<Item>, items': seq<Item>, param: Param) {
    |items'| == |items|
    && forall i :: 0 <= i < |items| && Matches(Owner(items[i]), param) ==> Owner(items'[i]) == param.query.value
  }

  lemma LikeKeeps(a: Item, b: Item, param: Param)
    requires ItemLike(a, b)
    ensures (ItemOk(b) ==> ItemOk(a)) && (Updatable(b) ==> Updatable(a)) && (Readable(b) ==> Readable(a))
    ensures Matches(Owner(b), param) ==> Matches(Owner(a), param)
    ensures ItemLike(WithTtl(a, param), WithTtl(b, param))
  {
    hide CaseEq, IsName, OptOk;
    if b.RR? {
      LikeOwner(a.rec.name, b.rec.name, param);
      LikeData(a.rec.rtype, a.rec.data, b.rec.data);
    } else {
      CaseEqSelf([]);
    }
  }

  lemma LikeOwner(a: Text, b: Text, param: Param)
    requires CaseEq(a, b)
    ensures |a| == |b| && (IsName(b) ==> IsName(a)) && (Matches(b, param) ==> Matches(a, param))
  {
    hide IsName;
    if IsName(b) {
      NameLike(a, b);
    }
    if Matches(b, param) {
      CaseEqTrans(a, b, param.query.value);
    }
  }

  lemma NameLike(a: Text, b: Text)
    requires CaseEq(a, b) && IsName(b)
    ensures IsName(a)
  {
    hide CaseEq, Labels, IsLabel;
    CaseKeepsLabels(a, b);
    forall i | 0 <= i < |Labels(a)| ensures IsLabel(Labels(a)[i]) {
      CaseKeepsLabel(Labels(a)[i], Labels(b)[i]);
    }
  }

  lemma LikeData(rtype: nat, a: Rdata, b: Rdata)
    requires DataLike(a, b)
    ensures (DataOk(rtype, b) ==> DataOk(rtype, a)) && (DataReadable(rtype, b) ==> DataReadable(rtype, a))
  {
    hide CaseEq, IsName;
    var none := Param(0, 0, None);
    match b
    case Raw(_) =>
    case Host(_) => LikeOwner(a.host, b.host, none);
    case Soa(_, _, _, _, _, _, _) =>
      LikeOwner(a.mname, b.mname, none);
      LikeOwner(a.rname, b.rname, none);
    case Srv(_, _, _, _) => LikeOwner(a.target, b.target, none);
  }

  lemma {:induction false} ItemsLikeKeep(a: seq<Item>, b: seq<Item>, param: Param)
    requires ItemsLike(a, b)
    ensures (AllOk(b) ==> AllOk(a)) && (AllUpdatable(b) ==> AllUpdatable(a)) && (AllReadable(b) ==> AllReadable(a))
    ensures ItemsLike(WithTtls(a, param), WithTtls(b, param))
    ensures forall i :: 0 <= i < |a| && Matches(Owner(b[i]), param) ==> Matches(Owner(a[i]), param)
  {
    hide ItemLike, ItemOk, Updatable, Readable, WithTtl, Matches, Owner;
    forall i | 0 <= i < |a|
      ensures (ItemOk(b[i]) ==> ItemOk(a[i])) && (Updatable(b[i]) ==> Updatable(a[i])) && (Readable(b[i]) ==> Readable(a[i]))
      ensures ItemLike(WithTtl(a[i], param), WithTtl(b[i], param))
      ensures Matches(Owner(b[i]), param) ==> Matches(Owner(a[i]), param)
    {
      LikeKeeps(a[i], b[i], param);
    }
  }

  lemma {:induction false} ItemsUpdated(b: seq<byte>, m: seq<Kind>, p: nat, e: nat, items: seq<Item>, param: Param) returns (items': seq<Item>)
    requires ItemsAt(b, m, p, e, items) && AllOk(items) && AllUpdatable(items) && |m| == |b|
    ensures var (u, next) := UpdateItems(b, p, |items|, param);
            && u.ok && next == e && Patched(b, u.b, m, p, e) && KeepsQuery(b, u.b, m, param)
            && ItemsAt(u.b, m, p, e, items') && ItemsLike(items', WithTtls(items, param)) && Respelled(items, items', param)
    decreases |items|
  {
    hide ItemAt, ItemEnd, ItemLike, ItemOk, Updatable, WithTtl, CaseEq, Owner, Patched, KeepsQuery, NameIs, UpdateItem, Cursor, Respelled;
    if items == [] {
      items' := [];
      RespelledNone(param);
      PatchedNothing(b, m, p, e);
      KeepsQueryNothing(b, m, param);
    } else {
      var q := ItemEnd(b, p);
      ItemForward(b, m, p, q, items[0]);
      ItemsForward(b, m, q, e, items[1..]);
      var first := ItemUpdated(b, m, p, q, items[0], param);
      var b1 := UpdateItem(b, p, param).0.b;
      PatchedLength(b, b1, m, p, q);
      var rest := ItemsPatched(b, b1, m, p, q, q, e, items[1..]);
      ItemsLikeKeep(rest, items[1..], param);
      var rest' := ItemsUpdated(b1, m, q, e, rest, param);
      var b2 := UpdateItems(b1, q, |rest|, param).0.b;
      PatchedTrans(b, b1, b2, m, p, q, e);
      KeepsQueryTrans(b, b1, b2, m, param);
      var first' := ItemPatched(b1, b2, m, q, e, p, q, first);
      items' := [first'] + rest';
      assert items'[1..] == rest';
      ItemLikeTrans(first', first, WithTtl(items[0], param));
      ItemsLikeTrans(rest', WithTtls(rest, param), WithTtls(items[1..], param));
      LikeCons(first', rest', items, param);
      if Matches(Owner(items[0]), param) {
        FirstRespelled(b1, b2, m, p, q, Cursor(b, p), first', param);
      }
      RespelledCons(items, rest, first', rest', param);
    }
  }

  lemma PatchedNothing(b: seq<byte>, m: seq<Kind>, lo: nat, hi: nat)
    requires |m| == |b|
    ensures Patched(b, b, m, lo, hi)
  {
  }

  lemma KeepsQueryNothing(b: seq<byte>, m: seq<Kind>, param: Param)
    ensures KeepsQuery(b, b, m, param)
  {
  }

  lemma PatchedLength(b: seq<byte>, b': seq<byte>, m: seq<Kind>, lo: nat, hi: nat)
    requires Patched(b, b', m, lo, hi)
    ensures |b'| == |b| == |m|
  {
  }

  lemma LikeCons(first: Item, rest: seq<Item>, items: seq<Item>, param: Param)
    requires items != [] && ItemLike(first, WithTtl(items[0], param)) && ItemsLike(rest, WithTtls(items[1..], param))
    ensures ItemsLike([first] + rest, WithTtls(items, param))
  {
    hide ItemLike, WithTtl;
    forall i | 0 <= i < |items| ensures ItemLike(([first] + rest)[i], WithTtls(items, param)[i]) {
      if i > 0 {
        assert ItemLike(rest[i - 1], WithTtls(items[1..], param)[i - 1]);
        assert items[1..][i - 1] == items[i];
      }
    }
  }

  lemma RespelledNone(param: Param)
    ensures Respelled([], [], param) && QRespelled([], [], param)
  {
  }

  lemma FirstRespelled(b1: seq<byte>, b2: seq<byte>, m: seq<Kind>, p: nat, e: nat, q: nat, item: Item, param: Param)
    requires param.query.Some? && NameIs(b1, m, p, q, param.query.value) && KeepsQuery(b1, b2, m, param)
    requires ItemAt(b2, m, p, e, item)
    ensures Owner(item) == param.query.value
  {
    hide NameIs, Cursor, DataAt, NoName, FieldIs;
    NameIsUnique(b2, m, p, q, param.query.value, Cursor(b2, p), Owner(item));
  }

  lemma RespelledCons(items: seq<Item>, rest: seq<Item>, first': Item, rest': seq<Item>, param: Param)
    requires items != [] && |rest| == |items| - 1 && Respelled(rest, rest', param)
    requires forall i :: 0 <= i < |rest| && Matches(Owner(items[1..][i]), param) ==> Matches(Owner(rest[i]), param)
    requires Matches(Owner(items[0]), param) ==> Owner(first') == param.query.value
    ensures Respelled(items, [first'] + rest', param)
  {
    hide Owner, CaseEq;
    forall i | 0 <= i < |items| && Matches(Owner(items[i]), param)
      ensures Owner(([first'] + rest')[i]) == param.query.value
    {
      if i > 0 {
        assert items[i] == items[1..][i - 1];
      }
    }
  }

  // ---- Questions ----

  predicate QRespelled(qs: seq<Question>, qs': seq<Question>, param: Param) {
    |qs'| == |qs|
    && forall i :: 0 <= i < |qs| && Matches(qs[i].name, param) ==> qs'[i].name == param.query.value
  }

  lemma QLikeKeep(a: seq<Question>, b: seq<Question>, param: Param)
    requires QuestionsLike(a, b)
    ensures (QuestionsOk(b) ==> QuestionsOk(a)) && (QuestionsReadable(b) ==> QuestionsReadable(a))
    ensures forall i :: 0 <= i < |a| && Matches(b[i].name, param) ==> Matches(a[i].name, param)
  {
    hide CaseEq, IsName;
    forall i | 0 <= i < |a|
      ensures (QuestionOk(b[i]) ==> QuestionOk(a[i])) && (QuestionReadable(b[i]) ==> QuestionReadable(a[i]))
      ensures Matches(b[i].name, param) ==> Matches(a[i].name, param)
    {
      LikeOwner(a[i].name, b[i].name, param);
    }
  }

  lemma QuestionsLikeTrans(a: seq<Question>, b: seq<Question>, c: seq<Question>)
    requires QuestionsLike(a, b) && QuestionsLike(b, c)
    ensures QuestionsLike(a, c)
  {
    hide CaseEq;
    forall i | 0 <= i < |a| ensures QuestionLike(a[i], c[i]) {
      CaseEqTrans(a[i].name, b[i].name, c[i].name);
    }
  }

  lemma {:induction false} QuestionsUpdated(b: seq<byte>, m: seq<Kind>, p: nat, e: nat, qs: seq<Question>, param: Param) returns (qs': seq<Question>)
    requires QuestionsAt(b, m, p, e, qs) && QuestionsReadable(qs) && |m| == |b|
    ensures var (u, next) := UpdateQuestions(b, p, |qs|, param);
            && u.ok && next == e && Recased(b, u.b, m) && KeepsQuery(b, u.b, m, param)
            && QuestionsAt(u.b, m, p, e, qs') && QuestionsLike(qs', qs) && QRespelled(qs, qs', param)
    decreases |qs|
  {
    hide QuestionAt, QuestionEnd, QuestionLike, QuestionReadable, CaseEq, Recased, KeepsQuery, NameIs, UpdateQuestion, QRespelled;
    if qs == [] {
      qs' := [];
      RespelledNone(param);
      RecasedNothing(b, m);
      KeepsQueryNothing(b, m, param);
    } else {
      var q := QuestionEnd(b, p);
      QuestionForward(b, m, p, q, qs[0]);
      var first := QuestionUpdated(b, m, p, q, qs[0], param);
      var b1 := UpdateQuestion(b, p, param).0.b;
      RecasedLength(b, b1, m);
      var rest := QuestionsRecased(b, b1, m, q, e, qs[1..]);
      QLikeKeep(rest, qs[1..], param);
      var rest' := QuestionsUpdated(b1, m, q, e, rest, param);
      var b2 := UpdateQuestions(b1, q, |rest|, param).0.b;
      RecasedTransitive(b, b1, b2, m);
      KeepsQueryTrans(b, b1, b2, m, param);
      var first' := QuestionRecased(b1, b2, m, p, q, first);
      qs' := [first'] + rest';
      assert qs'[1..] == rest';
      QuestionLikeTrans(first', first, qs[0]);
      QuestionsLikeTrans(rest', rest, qs[1..]);
      if Matches(qs[0].name, param) {
        FirstQuestionRespelled(b1, b2, m, p, q, first', qs[0], param);
      }
      QRespelledCons(qs, rest, first', rest', param);
    }
  }

  lemma QuestionLikeTrans(a: Question, b: Question, c: Question)
    requires QuestionLike(a, b) && QuestionLike(b, c)
    ensures QuestionLike(a, c)
  {
    hide CaseEq;
    CaseEqTrans(a.name, b.name, c.name);
  }

  lemma FirstQuestionRespelled(b1: seq<byte>, b2: seq<byte>, m: seq<Kind>, p: nat, e: nat, q': Question, q: Question, param: Param)
    requires Matches(q.name, param) && e >= 4 && NameIs(b1, m, p, e - 4, param.query.value) && KeepsQuery(b1, b2, m, param)
    requires QuestionAt(b2, m, p, e, q')
    ensures q'.name == param.query.value
  {
    hide NameIs, CaseEq, FieldIs, NoName;
    NameIsUnique(b2, m, p, e - 4, param.query.value, e - 4, q'.name);
  }

  lemma QRespelledCons(qs: seq<Question>, rest: seq<Question>, first': Question, rest': seq<Question>, param: Param)
    requires qs != [] && |rest| == |qs| - 1 && QRespelled(rest, rest', param)
    requires forall i :: 0 <= i < |rest| && Matches(qs[1..][i].name, param) ==> Matches(rest[i].name, param)
    requires Matches(qs[0].name, param) ==> first'.name == param.query.value
    ensures QRespelled(qs, [first'] + rest', param)
  {
    hide CaseEq;
    forall i | 0 <= i < |qs| && Matches(qs[i].name, param)
      ensures ([first'] + rest')[i].name == param.query.value
    {
      if i > 0 {
        assert qs[i] == qs[1..][i - 1];
      }
    }
  }

  // ---- Whole messages ----

  lemma IdWritten(b: seq<byte>, m: seq<Kind>, head: Head, counts: seq<byte>, id: nat)
    requires |counts| == 8 && FieldIs(b, 0, HeaderBytes(head, counts)) && NoName(m, 0, 12) && |m| == |b|
    ensures |b| >= 12
    ensures var b' := Write(b, 0, ShortBytes(id));
            && FieldIs(b', 0, HeaderBytes(head.(id := id), counts)) && Keeps(b, m, b', m) && Same(b, m, b', m, 12, |b|)
  {
    hide ShortBytes, Flags;
    var b' := Write(b, 0, ShortBytes(id));
    WriteKeeps(b, m, 0, ShortBytes(id));
    var tail := ShortBytes(Flags(head)) + counts;
    assert HeaderBytes(head, counts) == ShortBytes(head.id) + tail;
    HeadField(b, 0, ShortBytes(head.id), tail);
    FlagsIgnoreId(head, id);
    assert HeaderBytes(head.(id := id), counts) == ShortBytes(id) + tail;
    WriteSpares(b, 0, ShortBytes(id), 2, 12);
    assert b'[0..12] == b'[0..2] + b'[2..12];
  }

  lemma FlagsIgnoreId(h: Head, id: nat)
    ensures Flags(h.(id := id)) == Flags(h)
  {
  }

  /** dns_packet_update succeeds, and leaves a message laid out like before. */
  lemma MessageUpdated(b: seq<byte>, m: seq<Kind>, e: nat, head: Head, qd: seq<Question>, items: seq<Item>, an: nat, ns: nat, param: Param)
    returns (qd': seq<Question>, items': seq<Item>)
    requires MessageAt(b, m, e, head, qd, items, an, ns) && HeadOk(head)
    requires QuestionsReadable(qd) && AllOk(items) && AllUpdatable(items)
    ensures var u := UpdateMessage(b, param);
            && u.ok && MessageAt(u.b, m, e, head.(id := param.id), qd', items', an, ns)
            && QuestionsLike(qd', qd) && QRespelled(qd, qd', param)
            && ItemsLike(items', WithTtls(items, param)) && Respelled(items, items', param)
  {
    hide ItemsAt, QuestionsAt, FieldIs, NoName, HeaderBytes, CountBytes, Keeps, Same, Patched, Recased, KeepsQuery, HeadOk,
      QuestionsReadable, AllOk, AllUpdatable, QuestionsLike, ItemsLike, Respelled, QRespelled, WithTtls, Short, Write,
      UpdateItems, UpdateQuestions;
    var counts := CountBytes(|qd|, an, ns, |items| - an - ns);
    HeadRoundTrip(b, head, |qd|, an, ns, |items| - an - ns);
    IdWritten(b, m, head, counts, param.id);
    var b0 := Write(b, 0, ShortBytes(param.id));
    ItemsForward(b, m, e, |b|, items);
    SameShorter(b, m, b0, m, 12, e);
    SameInside(b, m, b0, m, 12, |b|, e);
    QuestionsKept(b, m, b0, m, 12, e, qd);
    ItemsKept(b, m, b0, m, e, |b|, items);
    var qd1 := QuestionsUpdated(b0, m, 12, e, qd, param);
    var b1 := UpdateQuestions(b0, 12, |qd|, param).0.b;
    RecasedLength(b0, b1, m);
    var items1 := ItemsRecased(b0, b1, m, e, |b|, items);
    ItemsLikeKeep(items1, items, param);
    items' := ItemsUpdated(b1, m, e, |b|, items1, param);
    LengthsLike(qd1, qd, items1, items);
    var b2 := UpdateItems(b1, e, |items1|, param).0.b;
    PatchedLength(b1, b2, m, e, |b|);
    qd' := QuestionsPatched(b1, b2, m, e, |b|, 12, e, qd1);
    QuestionsLikeTrans(qd', qd1, qd);
    ItemsLikeTrans(items', WithTtls(items1, param), WithTtls(items, param));
    RespelledTrans(items, items1, items', param);
    LengthsLike(qd', qd1, items', WithTtls(items, param));
    QuestionsRespelledStill(b1, b2, m, |b|, 12, e, qd1, qd', param);
    QRespelledTrans(qd, qd1, qd', param);
    HeaderSize(head.(id := param.id), counts);
    HeaderUntouched(b0, b1, b2, m, e, HeaderBytes(head.(id := param.id), counts));
  }

  lemma LengthsLike(qd': seq<Question>, qd: seq<Question>, items': seq<Item>, items: seq<Item>)
    requires QuestionsLike(qd', qd) && ItemsLike(items', items)
    ensures |qd'| == |qd| && |items'| == |items|
  {
  }

  lemma HeaderSize(h: Head, counts: seq<byte>)
    requires |counts| == 8
    ensures |HeaderBytes(h, counts)| == 12
  {
  }

  lemma HeaderUntouched(b0: seq<byte>, b1: seq<byte>, b2: seq<byte>, m: seq<Kind>, e: nat, s: seq<byte>)
    requires FieldIs(b0, 0, s) && |s| == 12 <= e && NoName(m, 0, 12) && Recased(b0, b1, m) && Patched(b1, b2, m, e, |b0|)
    ensures FieldIs(b2, 0, s)
  {
    assert b2[0..12] == b0[0..12];
  }

  lemma RespelledTrans(a: seq<Item>, b: seq<Item>, c: seq<Item>, param: Param)
    requires |a| == |b| && Respelled(b, c, param)
    requires forall i :: 0 <= i < |a| && Matches(Owner(a[i]), param) ==> Matches(Owner(b[i]), param)
    ensures Respelled(a, c, param)
  {
    hide Matches, Owner;
  }

  lemma QRespelledTrans(a: seq<Question>, b: seq<Question>, c: seq<Question>, param: Param)
    requires QRespelled(a, b, param) && |c| == |b|
    requires forall i :: 0 <= i < |b| ==> StillQuery(b[i], c[i], param)
    ensures QRespelled(a, c, param)
  {
    hide CaseEq;
  }

  lemma QuestionPatched(b: seq<byte>, b': seq<byte>, m: seq<Kind>, lo: nat, hi: nat, p: nat, e: nat, q: Question) returns (q': Question)
    requires QuestionAt(b, m, p, e, q) && Patched(b, b', m, lo, hi) && e <= lo
    ensures QuestionAt(b', m, p, e, q') && QuestionEnd(b', p) == e
  {
    hide QuestionAt, Patched, Recased, Keeps, Same, QuestionEnd, QuestionLike;
    QuestionForward(b, m, p, e, q);
    var b1 := PatchedSplits(b, b', m, lo, hi);
    q' := QuestionRecased(b, b1, m, p, e, q);
    QuestionKept(b1, m, b', m, p, e, q');
  }

  predicate StillQuery(q: Question, q': Question, param: Param) {
    param.query.Some? && q.name == param.query.value ==> q'.name == q.name
  }

  /** Questions spelled as the query are still so after the records have been patched. */
  lemma {:induction false} QuestionsRespelledStill(b1: seq<byte>, b2: seq<byte>, m: seq<Kind>, hi: nat, p: nat, lo: nat, qs: seq<Question>, qs': seq<Question>, param: Param)
    requires QuestionsAt(b1, m, p, lo, qs) && QuestionsAt(b2, m, p, lo, qs') && |qs'| == |qs|
    requires Patched(b1, b2, m, lo, hi) && KeepsQuery(b1, b2, m, param)
    ensures forall i :: 0 <= i < |qs| ==> StillQuery(qs[i], qs'[i], param)
    decreases |qs|
  {
    hide QuestionAt, Patched, QuestionEnd, KeepsQuery, StillQuery;
    if qs != [] {
      var q := QuestionEnd(b1, p);
      QuestionsForward(b1, m, q, lo, qs[1..]);
      var first := QuestionPatched(b1, b2, m, lo, hi, p, q, qs[0]);
      FirstStillQuery(b1, b2, m, p, q, qs[0], qs'[0], param);
      QuestionsRespelledStill(b1, b2, m, hi, q, lo, qs[1..], qs'[1..], param);
      forall i | 0 <= i < |qs| ensures StillQuery(qs[i], qs'[i], param) {
        if i > 0 {
          assert qs[i] == qs[1..][i - 1] && qs'[i] == qs'[1..][i - 1];
        }
      }
    }
  }

  lemma FirstStillQuery(b1: seq<byte>, b2: seq<byte>, m: seq<Kind>, p: nat, e: nat, q: Question, q': Question, param: Param)
    requires QuestionAt(b1, m, p, e, q) && QuestionAt(b2, m, p, e, q') && KeepsQuery(b1, b2, m, param)
    ensures StillQuery(q, q', param)
  {
    hide NameIs, FieldIs, NoName;
    if param.query.Some? && q.name == param.query.value {
      NameIsUnique(b2, m, p, e - 4, q.name, e - 4, q'.name);
    }
  }

  // ---- Whole packets ----

  function Ttls(recs: seq<Record>, param: Param): (r: seq<Record>)
    ensures |r| == |recs|
  {
    if param.ipTtl < 0 then recs
    else seq(|recs|, i requires 0 <= i < |recs| => recs[i].(ttl := param.ipTtl))
  }

  /** What dns_packet_update promises, on the packet: the id and the TTLs. */
  function Modified(p: Packet, param: Param): Packet {
    p.(head := p.head.(id := param.id), an := Ttls(p.an, param), ns := Ttls(p.ns, param), nr := Ttls(p.nr, param))
  }

  predicate RecordsLike(a: seq<Record>, b: seq<Record>) {
    |a| == |b| && forall i :: 0 <= i < |a| ==> RecordLike(a[i], b[i])
  }

  predicate PacketLike(a: Packet, b: Packet) {
    && a.head == b.head && QuestionsLike(a.qd, b.qd) && RecordsLike(a.an, b.an) && RecordsLike(a.ns, b.ns) && RecordsLike(a.nr, b.nr)
    && a.payload == b.payload && a.option == b.option && a.opts == b.opts
  }

  /** Every record of recs owned by the query is spelled as the query in recs'. */
  predicate OwnersRespelled(recs: seq<Record>, recs': seq<Record>, param: Param) {
    |recs'| == |recs|
    && forall i :: 0 <= i < |recs| && Matches(recs[i].name, param) ==> recs'[i].name == param.query.value
  }

  predicate PacketRespelled(p: Packet, p': Packet, param: Param) {
    && QRespelled(p.qd, p'.qd, param)
    && OwnersRespelled(p.an, p'.an, param) && OwnersRespelled(p.ns, p'.ns, param) && OwnersRespelled(p.nr, p'.nr, param)
  }

  lemma {:induction false} SectionUpdated(items: seq<Item>, items': seq<Item>, param: Param)
    requires ItemsLike(items', WithTtls(items, param)) && Respelled(items, items', param)
    ensures RecordsLike(Recs(items'), Ttls(Recs(items), param)) && OwnersRespelled(Recs(items), Recs(items'), param)
    decreases |items|
  {
    hide RecordLike, Matches;
    if items != [] {
      assert ItemLike(items'[0], WithTtl(items[0], param));
      SectionRest(items, items', param);
      SectionUpdated(items[1..], items'[1..], param);
      if items[0].RR? {
        var rest, rest' := Recs(items[1..]), Recs(items'[1..]);
        RecordsCons(items[0].rec, rest, items'[0].rec, rest', param);
      }
    }
  }

  lemma SectionRest(items: seq<Item>, items': seq<Item>, param: Param)
    requires items != [] && ItemsLike(items', WithTtls(items, param)) && Respelled(items, items', param)
    ensures ItemsLike(items'[1..], WithTtls(items[1..], param)) && Respelled(items[1..], items'[1..], param)
  {
    hide ItemLike, WithTtl, Matches, Owner;
    forall i | 0 <= i < |items| - 1 ensures ItemLike(items'[1..][i], WithTtls(items[1..], param)[i]) {
      assert ItemLike(items'[i + 1], WithTtls(items, param)[i + 1]);
    }
  }

  lemma RecordsCons(r: Record, rest: seq<Record>, r': Record, rest': seq<Record>, param: Param)
    requires RecordLike(r', if param.ipTtl >= 0 then r.(ttl := param.ipTtl) else r)
    requires Matches(r.name, param) ==> r'.name == param.query.value
    requires RecordsLike(rest', Ttls(rest, param)) && OwnersRespelled(rest, rest', param)
    ensures RecordsLike([r'] + rest', Ttls([r] + rest, param)) && OwnersRespelled([r] + rest, [r'] + rest', param)
  {
    hide RecordLike, Matches;
    forall i | 0 <= i <= |rest| ensures RecordLike(([r'] + rest')[i], Ttls([r] + rest, param)[i]) {
      if i > 0 {
        assert RecordLike(rest'[i - 1], Ttls(rest, param)[i - 1]);
      }
    }
  }

  predicate SameOpts(x: seq<Item>, y: seq<Item>) {
    |x| == |y| && forall i :: 0 <= i < |x| ==> x[i].RR? == y[i].RR? && (x[i].OptRR? ==> x[i] == y[i])
  }

  lemma {:induction false} AbsorbsSame(p: Packet, q: Packet, x: seq<Item>, y: seq<Item>)
    requires SameOpts(x, y) && p.payload == q.payload && p.option == q.option && p.opts == q.opts
    ensures var p', q' := Absorb(p, x), Absorb(q, y); p'.payload == q'.payload && p'.option == q'.option && p'.opts == q'.opts
    decreases |x|
  {
    if x != [] {
      var i := x[0];
      AbsorbsSame(if i.RR? then p else p.(payload := i.payload, option := i.option, opts := p.opts + i.opts),
                  if i.RR? then q else q.(payload := i.payload, option := i.option, opts := q.opts + i.opts), x[1..], y[1..]);
    }
  }

  lemma UpdatedOpts(items: seq<Item>, items': seq<Item>, param: Param)
    requires ItemsLike(items', WithTtls(items, param))
    ensures SameOpts(ReadAll(items), ReadAll(items'))
  {
    hide RecordLike;
    forall i | 0 <= i < |items|
      ensures items'[i].RR? == items[i].RR? && (items[i].OptRR? ==> items'[i] == items[i])
    {
      assert ItemLike(items'[i], WithTtls(items, param)[i]);
    }
  }

  lemma SliceUpdated(items: seq<Item>, items': seq<Item>, i: nat, j: nat, param: Param)
    requires i <= j <= |items| && ItemsLike(items', WithTtls(items, param)) && Respelled(items, items', param)
    ensures ItemsLike(items'[i..j], WithTtls(items[i..j], param)) && Respelled(items[i..j], items'[i..j], param)
    ensures RecordsLike(Recs(items'[i..j]), Ttls(Recs(items[i..j]), param))
    ensures OwnersRespelled(Recs(items[i..j]), Recs(items'[i..j]), param)
  {
    hide ItemLike, WithTtl, Matches, Owner, Recs, RecordsLike, OwnersRespelled;
    var x, x' := items[i..j], items'[i..j];
    forall k | 0 <= k < j - i ensures ItemLike(x'[k], WithTtls(x, param)[k]) {
      assert ItemLike(items'[i + k], WithTtls(items, param)[i + k]);
    }
    SectionUpdated(x, x', param);
  }

  lemma AssembleUpdated(h: Head, qd: seq<Question>, qd': seq<Question>, items: seq<Item>, items': seq<Item>, an: nat, ns: nat, param: Param)
    requires an + ns <= |items| == |items'| && QuestionsLike(qd', qd) && QRespelled(qd, qd', param)
    requires ItemsLike(items', WithTtls(items, param)) && Respelled(items, items', param)
    ensures var p, p' := Assemble(h, qd, ReadAll(items), an, ns), Assemble(h.(id := param.id), qd', ReadAll(items'), an, ns);
            PacketLike(p', Modified(p, param)) && PacketRespelled(p, p', param)
  {
    hide Recs, Absorb, ReadAll, QuestionsLike, QRespelled, ItemsLike, Respelled, RecordsLike, OwnersRespelled, SameOpts, Ttls;
    var R, R', k := ReadAll(items), ReadAll(items'), an + ns;
    SectionsOf(h, qd, items, an, ns);
    SectionsOf(h.(id := param.id), qd', items', an, ns);
    SliceUpdated(items, items', 0, an, param);
    SliceUpdated(items, items', an, k, param);
    SliceUpdated(items, items', k, |items|, param);
    assert items[0..an] == items[..an] && items[k..|items|] == items[k..];
    assert items'[0..an] == items'[..an] && items'[k..|items|] == items'[k..];
    UpdatedOpts(items, items', param);
    var a := Packet(h, qd, Recs(R[..an]), Recs(R[an..k]), Recs(R[k..]), 0, 0, []);
    var a' := Packet(h.(id := param.id), qd', Recs(R'[..an]), Recs(R'[an..k]), Recs(R'[k..]), 0, 0, []);
    AbsorbsSame(a, a', R, R');
    AbsorbKeepsSections(a, R);
    AbsorbKeepsSections(a', R');
  }

  // ---- When the patch fails ----

  lemma ItemFails(b: seq<byte>, m: seq<Kind>, p: nat, e: nat, item: Item, param: Param)
    requires ItemAt(b, m, p, e, item) && ItemOk(item) && !Updatable(item)
    ensures !UpdateItem(b, p, param).0.ok
  {
    hide NameIs, NoName, Cursor, ItemAt, ItemOk, CaseEq, Short, Int, UpdateOwner, DecodeHeadAt, IntBytes;
    var q := Cursor(b, p);
    ItemFields(b, m, p, e, item);
    HeadReads(b, m, p, q, Owner(item), MAX_CNAME_LEN, 10);
  }

  lemma LikeUpdatable(a: Item, b: Item)
    requires ItemLike(a, b)
    ensures Updatable(a) == Updatable(b)
  {
    hide DataLike;
  }

  lemma LikeUpdatables(a: seq<Item>, b: seq<Item>)
    requires ItemsLike(a, b)
    ensures AllUpdatable(a) == AllUpdatable(b)
  {
    hide Updatable, ItemLike;
    forall i | 0 <= i < |a| ensures Updatable(a[i]) == Updatable(b[i]) {
      LikeUpdatable(a[i], b[i]);
    }
  }

  lemma {:induction false} ItemsFail(b: seq<byte>, m: seq<Kind>, p: nat, e: nat, items: seq<Item>, param: Param)
    requires ItemsAt(b, m, p, e, items) && AllOk(items) && !AllUpdatable(items) && |m| == |b|
    ensures !UpdateItems(b, p, |items|, param).0.ok
    decreases |items|
  {
    hide ItemAt, ItemEnd, ItemLike, ItemOk, Updatable, CaseEq, Patched, KeepsQuery, NameIs, UpdateItem, Cursor;
    var q := ItemEnd(b, p);
    if Updatable(items[0]) {
      ItemForward(b, m, p, q, items[0]);
      var first := ItemUpdated(b, m, p, q, items[0], param);
      var b1 := UpdateItem(b, p, param).0.b;
      PatchedLength(b, b1, m, p, q);
      var rest := ItemsPatched(b, b1, m, p, q, q, e, items[1..]);
      ItemsLikeKeep(rest, items[1..], param);
      LikeUpdatables(rest, items[1..]);
      FirstUpdatable(items);
      ItemsFail(b1, m, q, e, rest, param);
    } else {
      ItemFails(b, m, p, q, items[0], param);
    }
  }

  lemma FirstUpdatable(items: seq<Item>)
    requires items != [] && Updatable(items[0])
    ensures AllUpdatable(items) == AllUpdatable(items[1..])
  {
    hide Updatable;
    if AllUpdatable(items[1..]) {
      forall i | 0 <= i < |items| ensures Updatable(items[i]) {
        if i > 0 {
          assert items[i] == items[1..][i - 1];
        }
      }
    }
  }

  lemma QuestionFails(b: seq<byte>, m: seq<Kind>, p: nat, e: nat, q: Question, param: Param)
    requires QuestionAt(b, m, p, e, q) && !QuestionReadable(q)
    ensures !UpdateQuestion(b, p, param).0.ok
  {
    hide NameIs, NoName, Cursor, UpdateOwner, DecodeHeadAt, QFields;
    CursorInside(b, m, p, e - 4, q.name);
    HeadReads(b, m, p, e - 4, q.name, MAX_CNAME_LEN, 4);
  }

  lemma LikeReadables(a: seq<Question>, b: seq<Question>)
    requires QuestionsLike(a, b)
    ensures QuestionsReadable(a) == QuestionsReadable(b)
  {
    forall i | 0 <= i < |a| ensures QuestionReadable(a[i]) == QuestionReadable(b[i]) {
      assert QuestionLike(a[i], b[i]);
    }
  }

  lemma {:induction false} QuestionsFail(b: seq<byte>, m: seq<Kind>, p: nat, e: nat, qs: seq<Question>, param: Param)
    requires QuestionsAt(b, m, p, e, qs) && !QuestionsReadable(qs) && |m| == |b|
    ensures !UpdateQuestions(b, p, |qs|, param).0.ok
    decreases |qs|
  {
    hide QuestionAt, QuestionEnd, QuestionLike, QuestionReadable, CaseEq, Recased, KeepsQuery, NameIs, UpdateQuestion;
    var q := QuestionEnd(b, p);
    if QuestionReadable(qs[0]) {
      QuestionForward(b, m, p, q, qs[0]);
      var first := QuestionUpdated(b, m, p, q, qs[0], param);
      var b1 := UpdateQuestion(b, p, param).0.b;
      RecasedLength(b, b1, m);
      var rest := QuestionsRecased(b, b1, m, q, e, qs[1..]);
      LikeReadables(rest, qs[1..]);
      FirstReadable(qs);
      QuestionsFail(b1, m, q, e, rest, param);
    } else {
      QuestionFails(b, m, p, q, qs[0], param);
    }
  }

  lemma FirstReadable(qs: seq<Question>)
    requires qs != [] && QuestionReadable(qs[0])
    ensures QuestionsReadable(qs) == QuestionsReadable(qs[1..])
  {
    hide QuestionReadable;
    if QuestionsReadable(qs[1..]) {
      forall i | 0 <= i < |qs| ensures QuestionReadable(qs[i]) {
        if i > 0 {
          assert qs[i] == qs[1..][i - 1];
        }
      }
    }
  }

  /** dns_packet_update fails on a laid-out message as soon as one part cannot be read. */
  lemma MessageFails(b: seq<byte>, m: seq<Kind>, e: nat, head: Head, qd: seq<Question>, items: seq<Item>, an: nat, ns: nat, param: Param)
    requires MessageAt(b, m, e, head, qd, items, an, ns) && HeadOk(head)
    requires AllOk(items) && !(QuestionsReadable(qd) && AllUpdatable(items))
    ensures !UpdateMessage(b, param).ok
  {
    hide ItemsAt, QuestionsAt, FieldIs, NoName, HeaderBytes, CountBytes, Keeps, Same, Recased, KeepsQuery, HeadOk,
      QuestionsReadable, AllOk, AllUpdatable, QuestionsLike, ItemsLike, QRespelled, Short, Write, UpdateItems, UpdateQuestions;
    var counts := CountBytes(|qd|, an, ns, |items| - an - ns);
    HeadRoundTrip(b, head, |qd|, an, ns, |items| - an - ns);
    IdWritten(b, m, head, counts, param.id);
    var b0 := Write(b, 0, ShortBytes(param.id));
    ItemsForward(b, m, e, |b|, items);
    SameShorter(b, m, b0, m, 12, e);
    SameInside(b, m, b0, m, 12, |b|, e);
    QuestionsKept(b, m, b0, m, 12, e, qd);
    ItemsKept(b, m, b0, m, e, |b|, items);
    if QuestionsReadable(qd) {
      var qd1 := QuestionsUpdated(b0, m, 12, e, qd, param);
      var b1 := UpdateQuestions(b0, 12, |qd|, param).0.b;
      RecasedLength(b0, b1, m);
      var items1 := ItemsRecased(b0, b1, m, e, |b|, items);
      ItemsLikeKeep(items1, items, param);
      LikeUpdatables(items1, items);
      LengthsLike(qd1, qd, items1, items);
      ItemsFail(b1, m, e, |b|, items1, param);
    } else {
      QuestionsFail(b0, m, 12, e, qd, param);
    }
  }

  lemma ReadableUpdatable(items: seq<Item>)
    requires AllReadable(items)
    ensures AllUpdatable(items)
  {
    hide DataReadable;
    forall i | 0 <= i < |items| ensures Updatable(items[i]) {
      assert Readable(items[i]);
    }
  }

  /** The names and TTLs that dns_packet_update reads on its way can be read. */
  predicate PacketUpdatable(p: Packet) {
    QuestionsReadable(p.qd) && AllUpdatable(Items(p))
  }

  lemma SentUpdatable(items: seq<Item>, sent: seq<Item>)
    requires |sent| == |items| && forall i :: 0 <= i < |items| ==> SameKind(items[i], sent[i])
    ensures AllUpdatable(sent) == AllUpdatable(items)
  {
    hide ItemOk;
    forall i | 0 <= i < |sent| ensures Updatable(sent[i]) == Updatable(items[i]) {
      assert SameKind(items[i], sent[i]);
    }
  }

  lemma TtlsReadable(items: seq<Item>, param: Param)
    requires AllOk(items) && param.ipTtl < 0x8000_0000
    ensures AllOk(WithTtls(items, param)) && (AllReadable(items) ==> AllReadable(WithTtls(items, param)))
  {
    hide DataOk, DataReadable, IsName, OptOk;
  }

  /** A laid-out message, patched, reads as the modified packet; the patch fails exactly if a part cannot be read. */
  lemma UpdatedReads(b: seq<byte>, m: seq<Kind>, e: nat, head: Head, qd: seq<Question>, items: seq<Item>, an: nat, ns: nat, param: Param)
    returns (p': Packet)
    requires MessageAt(b, m, e, head, qd, items, an, ns) && HeadOk(head) && QuestionsOk(qd)
    requires AllOk(items) && param.id < 0x1_0000 && param.ipTtl < 0x8000_0000
    ensures UpdateMessage(b, param).ok <==> QuestionsReadable(qd) && AllUpdatable(items)
    ensures Decode(b).Some? ==>
              && UpdateMessage(b, param).ok && Decode(UpdateMessage(b, param).b) == Some(p')
              && PacketLike(p', Modified(Decode(b).value, param)) && PacketRespelled(Decode(b).value, p', param)
  {
    hide MessageAt, Decode, UpdateMessage, ItemsLike, QuestionsLike, Respelled, QRespelled, AllOk, AllUpdatable, AllReadable,
      QuestionsOk, QuestionsReadable, Assemble, ReadAll, WithTtls, PacketLike, PacketRespelled, Modified;
    MessageReads(b, m, e, head, qd, items, an, ns);
    if QuestionsReadable(qd) && AllUpdatable(items) {
      p' := PatchedReads(b, m, e, head, qd, items, an, ns, param);
    } else {
      MessageFails(b, m, e, head, qd, items, an, ns, param);
      if AllReadable(items) {
        ReadableUpdatable(items);
      }
      p' := Assemble(head, qd, [], 0, 0);
    }
  }

  lemma PatchedReads(b: seq<byte>, m: seq<Kind>, e: nat, head: Head, qd: seq<Question>, items: seq<Item>, an: nat, ns: nat, param: Param)
    returns (p': Packet)
    requires MessageAt(b, m, e, head, qd, items, an, ns) && HeadOk(head) && QuestionsOk(qd) && QuestionsReadable(qd)
    requires AllOk(items) && AllUpdatable(items) && param.id < 0x1_0000 && param.ipTtl < 0x8000_0000
    ensures UpdateMessage(b, param).ok
    ensures Decode(b).Some? ==>
              && Decode(UpdateMessage(b, param).b) == Some(p')
              && PacketLike(p', Modified(Decode(b).value, param)) && PacketRespelled(Decode(b).value, p', param)
  {
    hide MessageAt, Decode, UpdateMessage, ItemsLike, QuestionsLike, Respelled, QRespelled, AllOk, AllUpdatable, AllReadable,
      QuestionsOk, QuestionsReadable, Assemble, ReadAll, WithTtls, PacketLike, PacketRespelled, Modified;
    var qd', items' := MessageUpdated(b, m, e, head, qd, items, an, ns, param);
    Sizes(b, m, e, head, qd, items, an, ns);
    LengthsLike(qd', qd, items', WithTtls(items, param));
    TtlsReadable(items, param);
    ItemsLikeKeep(items', WithTtls(items, param), param);
    QLikeKeep(qd', qd, param);
    MessageReads(b, m, e, head, qd, items, an, ns);
    MessageReads(UpdateMessage(b, param).b, m, e, head.(id := param.id), qd', items', an, ns);
    AssembleUpdated(head, qd, qd', items, items', an, ns, param);
    p' := Assemble(head.(id := param.id), qd', ReadAll(items'), an, ns);
  }

  lemma Sizes(b: seq<byte>, m: seq<Kind>, e: nat, head: Head, qd: seq<Question>, items: seq<Item>, an: nat, ns: nat)
    requires MessageAt(b, m, e, head, qd, items, an, ns)
    ensures an + ns <= |items|
  {
  }

  /**
   * The in-place patch refines decode, modify, encode. On a message dns_encode produces,
   * dns_packet_update succeeds if and only if the names and TTLs on its way can be read. If the message
   * decodes at all, it succeeds, and the patched one decodes to the same packet with the id replaced
   * and, when ip_ttl >= 0, every TTL but that of OPT replaced; names change at most in ASCII case; and
   * every owner and question equal to the query up to case is spelled exactly as the query, also where
   * labels are shared by pointers.
   */
  lemma PatchRefines(buffer: seq<byte>, p: Packet, stored: seq<nat>, S: set<Name>, param: Param) returns (p': Packet)
    requires PacketOk(p) && PacketKnown(p, S) && HashTellsApart(S)
    requires |buffer| <= MAX_BUFFER && |stored| == |Items(p)| && Encode(buffer, p, stored).Some?
    requires param.id < 0x1_0000 && param.ipTtl < 0x8000_0000
    ensures UpdateMessage(Encode(buffer, p, stored).value, param).ok <==> PacketUpdatable(p)
    ensures var msg := Encode(buffer, p, stored).value;
            Decode(msg).Some? ==>
              && UpdateMessage(msg, param).ok && Decode(UpdateMessage(msg, param).b) == Some(p')
              && PacketLike(p', Modified(Decode(msg).value, param)) && PacketRespelled(Decode(msg).value, p', param)
  {
    hide Encode, Decode, PacketKnown, HashTellsApart, MessageAt, SameKind, ItemOk, Updatable, Sent, Items, HeadOk, QuestionsOk,
      QuestionsReadable, PacketLike, PacketRespelled, Modified, UpdateMessage;
    var sent := SentItems(buffer, p, stored);
    var m, e := EncodeLaysOut(buffer, p, stored, S);
    EncodeSteps(buffer, p, stored);
    SentShape(AfterQuestions(buffer, p).value, Items(p), stored);
    SentOk(Items(p), sent);
    SentUpdatable(Items(p), sent);
    p' := UpdatedReads(Encode(buffer, p, stored).value, m, e, p.head, p.qd, sent, |p.an|, |p.ns|, param);
  }
}
