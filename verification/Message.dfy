/**
 * The DNS message codec (src/dns.c, dns_encode and dns_decode) on packets given as their header
 * and their section lists; how a dns_packet stores those lists is the subject of Arena.
 *
 * Names are C strings. Items are the records of a section; the OPT pseudo-record that dns_encode
 * puts at the end of the additional section is an item too.
 */
module Message {
  import opened Bytes
  import opened NameDecode
  import opened NameEncode

  const T_A: nat := 1
  const T_NS: nat := 2
  const T_CNAME: nat := 5
  const T_SOA: nat := 6
  const T_PTR: nat := 12
  const T_AAAA: nat := 28
  const T_SRV: nat := 33
  const T_OPT: nat := 41
  const T_SVCB: nat := 64
  const T_HTTPS: nat := 65
  const C_IN: nat := 1
  const OPT_ECS: nat := 8
  const OPT_COOKIE: nat := 10
  const OPT_KEEPALIVE: nat := 11
  const DEFAULT_PACKET_SIZE: nat := 512

  datatype Head = Head(
    id: nat, qr: nat, opcode: nat, aa: nat, tc: nat, rd: nat, ra: nat, z: nat, ad: nat, cd: nat, rcode: nat)

  datatype Question = Question(name: Text, qtype: nat, qclass: nat)

  datatype Rdata =
    | Raw(data: seq<byte>)
    | Host(host: Text)
    | Soa(mname: Text, rname: Text, serial: nat, refresh: nat, retry: nat, expire: nat, minimum: nat)
    | Srv(priority: nat, weight: nat, port: nat, target: Text)

  datatype Record = Record(name: Text, rtype: nat, ttl: nat, data: Rdata)

  /** The options of the OPT record; Ecs.addr holds only the bytes the source prefix covers. */
  datatype Opt = Ecs(family: nat, source: nat, scope: nat, addr: seq<byte>) | Keepalive(timeout: nat)

  datatype Item = RR(rec: Record) | OptRR(payload: nat, option: nat, opts: seq<Opt>)

  datatype Packet = Packet(
    head: Head, qd: seq<Question>, an: seq<Record>, ns: seq<Record>, nr: seq<Record>,
    payload: nat, option: nat, opts: seq<Opt>)

  // ---- Encoding ----

  /** Writing at the cursor. */
  function Put(c: Ctx, s: seq<byte>): (r: Ctx)
    requires |s| <= Left(c)
    ensures |r.data| == |c.data| && r.ptr == c.ptr + |s| && r.dict == c.dict
  {
    c.(data := Write(c.data, c.ptr, s), ptr := c.ptr + |s|)
  }

  /** _dns_write_short through a saved pointer. */
  function Patch(c: Ctx, p: nat, v: nat): (r: Ctx)
    requires p + 2 <= |c.data|
    ensures |r.data| == |c.data| && r.ptr == c.ptr && r.dict == c.dict
  {
    c.(data := Write(c.data, p, ShortBytes(v)))
  }

  /** _dns_encode_qr_head and the head of a resource record: a name and then fixed fields. */
  function EncodeHead(c: Ctx, name: Text, fields: seq<byte>): (r: Option<Ctx>)
    ensures r.Some? ==> |r.value.data| == |c.data| && c.ptr + |fields| < r.value.ptr <= |c.data|
  {
    var r := EncodeName(c, name);
    if r.ret < 0 || Left(r.c) < |fields| then None else Some(Put(r.c, fields))
  }

  function QFields(q: Question): (s: seq<byte>)
    ensures |s| == 4
  {
    ShortBytes(q.qtype) + ShortBytes(q.qclass)
  }

  function RrFields(rtype: nat, rclass: nat, ttl: nat): (s: seq<byte>)
    ensures |s| == 8
  {
    ShortBytes(rtype) + ShortBytes(rclass) + IntBytes(ttl)
  }

  function SoaFields(d: Rdata): (s: seq<byte>)
    requires d.Soa?
    ensures |s| == 20
  {
    IntBytes(d.serial) + IntBytes(d.refresh) + IntBytes(d.retry) + IntBytes(d.expire) + IntBytes(d.minimum)
  }

  function SrvFields(d: Rdata): (s: seq<byte>)
    requires d.Srv?
    ensures |s| == 6
  {
    ShortBytes(d.priority) + ShortBytes(d.weight) + ShortBytes(d.port)
  }

  function EncodeQuestion(c: Ctx, q: Question): Option<Ctx> {
    EncodeHead(c, q.name, QFields(q))
  }

  /**
   * The data of a record behind its length field, with the length the code computes for it:
   * _dns_encode_raw, _dns_encode_CNAME, _dns_encode_SOA and _dns_encode_SRV. stored is rrs->len,
   * the size the packet keeps the record in.
   */
  function EncodeData(c: Ctx, d: Rdata, stored: nat): (r: Option<(Ctx, nat)>)
    ensures r.Some? ==> |r.value.0.data| == |c.data| && c.ptr <= r.value.0.ptr <= |c.data|
  {
    match d
    case Raw(data) => if Left(c) < |data| then None else Some((Put(c, data), |data|))
    case Host(host) =>
      var r := EncodeName(c, host);
      if r.ret < 0 || 1 + r.ret > stored then None else Some((r.c, r.ret))
    case Soa(mname, rname, _, _, _, _, _) =>
      var r1 := EncodeName(c, mname);
      if r1.ret < 0 then None
      else
        var r2 := EncodeName(r1.c, rname);
        if r2.ret < 0 || r1.ret + r2.ret > stored || Left(r2.c) < 20 then None
        else Some((Put(r2.c, SoaFields(d)), r1.ret + r2.ret + 20))
    case Srv(_, _, _, target) =>
      if Left(c) < 6 then None
      else
        var r := EncodeName(Put(c, SrvFields(d)), target);
        if r.ret < 0 then None else Some((r.c, 6 + r.ret))
  }

  function EcsLen(source: nat): nat {
    source / 8 + if source % 8 > 0 then 1 else 0
  }

  function OptBytes(o: Opt): seq<byte> {
    match o
    case Ecs(family, source, scope, addr) =>
      ShortBytes(OPT_ECS) + ShortBytes(4 + |addr|) + ShortBytes(family) + [source % 256, scope % 256] + addr
    case Keepalive(timeout) => ShortBytes(OPT_KEEPALIVE) + ShortBytes(2) + ShortBytes(timeout)
  }

  function OptsBytes(opts: seq<Opt>): seq<byte> {
    if opts == [] then [] else OptBytes(opts[0]) + OptsBytes(opts[1..])
  }

  function Payload(payload: nat): nat {
    if payload < DEFAULT_PACKET_SIZE then DEFAULT_PACKET_SIZE else payload
  }

  /** One record of a section, or the OPT record; the length field is first written as 0. */
  function EncodeItem(c: Ctx, item: Item, stored: nat): (r: Option<Ctx>)
    ensures r.Some? ==> |r.value.data| == |c.data| && c.ptr < r.value.ptr <= |c.data|
  {
    match item
    case RR(rec) =>
      var h := EncodeHead(c, rec.name, RrFields(rec.rtype, C_IN, rec.ttl) + ShortBytes(0));
      if h.None? then None
      else
        var d := EncodeData(h.value, rec.data, stored);
        if d.None? then None else Some(Patch(d.value.0, h.value.ptr - 2, d.value.1))
    case OptRR(payload, option, opts) =>
      var h := EncodeHead(c, [], RrFields(T_OPT, Payload(payload), option) + ShortBytes(|OptsBytes(opts)|));
      if h.None? || Left(h.value) < |OptsBytes(opts)| then None else Some(Put(h.value, OptsBytes(opts)))
  }

  function EncodeQuestions(c: Ctx, qs: seq<Question>): (r: Option<Ctx>)
    requires c.ptr <= |c.data|
    ensures r.Some? ==> |r.value.data| == |c.data| && c.ptr <= r.value.ptr <= |c.data|
    decreases |qs|
  {
    if qs == [] then Some(c)
    else
      var r := EncodeQuestion(c, qs[0]);
      if r.None? then None else EncodeQuestions(r.value, qs[1..])
  }

  /** The loops over a section's records; stored[i] is the stored size of items[i]. */
  function EncodeItems(c: Ctx, items: seq<Item>, stored: seq<nat>): (r: Option<Ctx>)
    requires |stored| == |items| && c.ptr <= |c.data|
    ensures r.Some? ==> |r.value.data| == |c.data| && c.ptr <= r.value.ptr <= |c.data|
    decreases |items|
  {
    if items == [] then Some(c)
    else
      var r := EncodeItem(c, items[0], stored[0]);
      if r.None? then None else EncodeItems(r.value, items[1..], stored[1..])
  }

  /** _dns_encode_head: masking each value to its bits and shifting it to its place. */
  function Flags(h: Head): nat {
    h.qr % 2 * 0x8000 + h.opcode % 16 * 0x800 + h.aa % 2 * 0x400 + h.tc % 2 * 0x200 + h.rd % 2 * 0x100
    + h.ra % 2 * 0x80 + h.z % 2 * 0x40 + h.ad % 2 * 0x20 + h.cd % 2 * 0x10 + h.rcode % 16
  }

  function HasOpt(p: Packet): bool {
    p.opts != [] || p.payload > 0
  }

  function RRs(recs: seq<Record>): (items: seq<Item>)
    ensures |items| == |recs| && forall i :: 0 <= i < |recs| ==> items[i] == RR(recs[i])
  {
    seq(|recs|, i requires 0 <= i < |recs| => RR(recs[i]))
  }

  /** The items of the additional section as they go on the wire. */
  function Additional(p: Packet): seq<Item> {
    RRs(p.nr) + if HasOpt(p) then [OptRR(p.payload, p.option, p.opts)] else []
  }

  /** All items behind the questions. */
  function Items(p: Packet): seq<Item> {
    RRs(p.an) + RRs(p.ns) + Additional(p)
  }

  function Counts(p: Packet): (s: seq<byte>)
    ensures |s| == 8
  {
    ShortBytes(|p.qd|) + ShortBytes(|p.an|) + ShortBytes(|p.ns|) + ShortBytes(|Additional(p)|)
  }

  /** dns_encode into `buffer`: the message, or None for a failing call. */
  function Encode(buffer: seq<byte>, p: Packet, stored: seq<nat>): Option<seq<byte>>
    requires |stored| == |Items(p)|
  {
    if |buffer| < 12 then None
    else
      var c := Put(Ctx(buffer, 0, []), ShortBytes(p.head.id) + ShortBytes(Flags(p.head)) + Counts(p));
      var q := EncodeQuestions(c, p.qd);
      if q.None? then None
      else
        var r := EncodeItems(q.value, Items(p), stored);
        if r.None? then None else Some(r.value.data[..r.value.ptr])
  }

  // ---- Decoding ----

  /** _dns_decode_head. */
  function DecodeHead(b: seq<byte>): Head
    requires |b| >= 12
  {
    var f := Short(b, 2);
    Head(Short(b, 0), f / 0x8000 % 2, f / 0x800 % 16, f / 0x400 % 2, f / 0x200 % 2, f / 0x100 % 2,
         f / 0x80 % 2, f / 0x40 % 2, f / 0x20 % 2, f / 0x10 % 2, f % 16)
  }

  /** _dns_decode_domain followed by `fields` more bytes: the name and where the fields start. */
  function DecodeHeadAt(b: seq<byte>, p: nat, size: nat, fields: nat): Option<(Text, nat)> {
    var name := Expand(b, p, [], size, 0);
    if name.None? || Cursor(b, p) + fields > |b| then None else Some((name.value, Cursor(b, p)))
  }

  function DecodeQuestion(b: seq<byte>, p: nat): Option<(Question, nat)> {
    var h := DecodeHeadAt(b, p, MAX_CNAME_LEN, 4);
    if h.None? then None
    else
      var q := h.value.1;
      Some((Question(h.value.0, Short(b, q), Short(b, q + 2)), q + 4))
  }

  /** One option of an OPT record at p: what it adds, and where the next one starts. */
  function DecodeOpt(b: seq<byte>, p: nat): (r: Option<(seq<Opt>, nat)>)
    ensures r.Some? ==> p < r.value.1
  {
    if p + 4 > |b| then None
    else
      var code, len := Short(b, p), Short(b, p + 2);
      if p + 4 + len > |b| then None
      else if code == OPT_ECS then
        if len < 4 then None
        else
          var n := EcsLen(b[p + 6]);
          if p + 8 + n > |b| || n > 16 then None
          else Some(([Ecs(Short(b, p + 4), b[p + 6], b[p + 7], b[p + 8..p + 8 + n])], p + 8 + n))
      else if code == OPT_COOKIE then
        if len < 8 || (8 < len < 16) || len > 40 then None else Some(([], p + 4 + len))
      else if code == OPT_KEEPALIVE then
        if len == 0 then Some(([Keepalive(0)], p + 4))
        else if len < 2 then None
        else Some(([Keepalive(Short(b, p + 4))], p + 6))
      else Some(([], p + 4 + len))
  }

  /** The loop of _dns_decode_opt. */
  function DecodeOpts(b: seq<byte>, p: nat, end: nat): Option<(seq<Opt>, nat)>
    decreases end - p
  {
    if p >= end then Some(([], p))
    else
      var o := DecodeOpt(b, p);
      if o.None? then None
      else
        var rest := DecodeOpts(b, o.value.1, end);
        if rest.None? then None else Some((o.value.0 + rest.value.0, rest.value.1))
  }

  /** The switch of _dns_decode_an on records other than OPT: the data and where it ended. */
  function DecodeData(b: seq<byte>, p: nat, rtype: nat, len: nat): Option<(Rdata, nat)>
    requires p + len <= |b|
  {
    if rtype == T_A || rtype == T_AAAA then
      var n := if rtype == T_A then 4 else 16;
      if p + n > |b| then None else Some((Raw(b[p..p + n]), p + n))
    else if rtype == T_CNAME || rtype == T_NS || rtype == T_PTR then
      var h := DecodeHeadAt(b, p, MAX_CNAME_LEN, 0);
      if h.None? then None else Some((Host(h.value.0), h.value.1))
    else if rtype == T_SOA then
      var h1 := DecodeHeadAt(b, p, MAX_CNAME_LEN - 1, 0);
      if h1.None? then None
      else
        var h2 := DecodeHeadAt(b, h1.value.1, MAX_CNAME_LEN - 1, 20);
        if h2.None? then None
        else
          var q := h2.value.1;
          Some((Soa(h1.value.0, h2.value.0, Int(b, q), Int(b, q + 4), Int(b, q + 8), Int(b, q + 12), Int(b, q + 16)), q + 20))
    else if rtype == T_SRV then
      if p + 6 > |b| then None
      else
        var h := DecodeHeadAt(b, p + 6, MAX_CNAME_LEN, 0);
        if h.None? then None else Some((Srv(Short(b, p), Short(b, p + 2), Short(b, p + 4), h.value.0), h.value.1))
    else if rtype == T_SVCB || rtype == T_HTTPS then None // not part of this model
    else if len >= 1024 then None
    else Some((Raw(b[p..p + len]), p + len))
  }

  /** _dns_decode_an. */
  function DecodeItem(b: seq<byte>, p: nat): Option<(Item, nat)> {
    var h := DecodeHeadAt(b, p, MAX_CNAME_LEN, 10);
    if h.None? then None
    else
      var q := h.value.1;
      var rtype, rclass, ttl, len := Short(b, q), Short(b, q + 2), Int(b, q + 4), Short(b, q + 8);
      var start := q + 10;
      if ttl >= 0x8000_0000 || start + len > |b| then None
      else if rtype == T_OPT then
        var o := if ttl / 0x1_0000 != 0 then Some(([], start)) else DecodeOpts(b, start, start + len);
        if o.None? || o.value.1 != start + len then None
        else Some((OptRR(Payload(rclass), ttl, o.value.0), start + len))
      else
        var d := DecodeData(b, start, rtype, len);
        if d.None? || d.value.1 != start + len then None
        else Some((RR(Record(h.value.0, rtype, ttl, d.value.0)), start + len))
  }

  function DecodeQuestions(b: seq<byte>, p: nat, count: nat): Option<(seq<Question>, nat)>
    decreases count
  {
    if count == 0 then Some(([], p))
    else
      var q := DecodeQuestion(b, p);
      if q.None? then None
      else
        var rest := DecodeQuestions(b, q.value.1, count - 1);
        if rest.None? then None else Some(([q.value.0] + rest.value.0, rest.value.1))
  }

  function DecodeItems(b: seq<byte>, p: nat, count: nat): Option<(seq<Item>, nat)>
    decreases count
  {
    if count == 0 then Some(([], p))
    else
      var i := DecodeItem(b, p);
      if i.None? then None
      else
        var rest := DecodeItems(b, i.value.1, count - 1);
        if rest.None? then None else Some(([i.value.0] + rest.value.0, rest.value.1))
  }

  /** The records a section ends up with: OPT items go elsewhere. */
  function Recs(items: seq<Item>): seq<Record> {
    if items == [] then [] else (if items[0].RR? then [items[0].rec] else []) + Recs(items[1..])
  }

  /** OPT items fold into the packet: options are appended, payload size and flags overwritten. */
  function Absorb(p: Packet, items: seq<Item>): Packet
    decreases |items|
  {
    if items == [] then p
    else
      var i := items[0];
      Absorb(if i.RR? then p else p.(payload := i.payload, option := i.option, opts := p.opts + i.opts), items[1..])
  }

  /** dns_decode: the packet, or None for a failing call. */
  function Decode(b: seq<byte>): Option<Packet> {
    if |b| < 12 then None
    else
      var qd := DecodeQuestions(b, 12, Short(b, 4));
      if qd.None? then None
      else
        var an := DecodeItems(b, qd.value.1, Short(b, 6));
        if an.None? then None
        else
          var ns := DecodeItems(b, an.value.1, Short(b, 8));
          if ns.None? then None
          else
            var nr := DecodeItems(b, ns.value.1, Short(b, 10));
            if nr.None? then None
            else
              var p := Packet(DecodeHead(b), qd.value.0, Recs(an.value.0), Recs(ns.value.0), Recs(nr.value.0), 0, 0, []);
              Some(Absorb(p, an.value.0 + ns.value.0 + nr.value.0))
  }
}
