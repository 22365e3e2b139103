/**
 * Patching an encoded message in place (src/dns.c, dns_packet_update): a cached answer gets the id,
 * the TTL and the spelling of a new query without being decoded and encoded again.
 *
 * Upd carries the buffer and whether the call returned 0. A copy in _dns_update_domain that would
 * run past the buffer or past the query text counts as a failing call here; on the messages the
 * theorems are about it does not happen.
 */
module Update {
  import opened Bytes
  import opened NameDecode
  import opened NameEncode
  import opened Message

  datatype Param = Param(id: nat, ipTtl: int, query: Option<Text>)

  datatype Upd = Upd(b: seq<byte>, ok: bool)

  function Lower(x: byte): byte {
    if 65 <= x <= 90 then x + 32 else x
  }

  /** strncasecmp(a, b) == 0 on texts without NUL. */
  predicate CaseEq(a: Text, b: Text) {
    |a| == |b| && forall i :: 0 <= i < |a| ==> Lower(a[i]) == Lower(b[i])
  }

  /** The loop of _dns_update_domain. */
  function UpdateLoop(b: seq<byte>, p: nat, jump: nat, processed: nat, output: nat, domain: Text): (r: Upd)
    ensures |r.b| == |b|
    decreases |domain| + 2 - processed, MAX_JUMPS + 1 - jump
  {
    if p >= |b| || jump > MAX_JUMPS || processed > |domain| + 1 then Upd(b, false)
    else if b[p] == 0 then Upd(b, output == |domain|)
    else if b[p] >= 0xC0 then
      if p + 2 > |b| then Upd(b, false) else UpdateLoop(b, Target(b, p), jump + 1, processed, output, domain)
    else
      var len := b[p];
      if processed + len > |domain| || p + 1 + len > |b| then Upd(b, false)
      else
        UpdateLoop(Write(b, p + 1, domain[processed..processed + len]), p + 1 + len, 0, processed + len + 1,
                   (if output > 0 then output + 1 else 0) + len, domain)
  }

  /** _dns_update_rr_domain for a name read as `name` at p. */
  function UpdateOwner(b: seq<byte>, p: nat, name: Text, param: Param): (r: Upd)
    ensures |r.b| == |b|
  {
    if param.query.None? || !CaseEq(name, param.query.value) then Upd(b, true)
    else UpdateLoop(b, p, 0, 0, 0, param.query.value)
  }

  /** _dns_update_qd: the buffer and the next position. */
  function UpdateQuestion(b: seq<byte>, p: nat, param: Param): (Upd, nat) {
    var h := DecodeHeadAt(b, p, MAX_CNAME_LEN, 4);
    if h.None? then (Upd(b, false), p) else (UpdateOwner(b, p, h.value.0, param), h.value.1 + 4)
  }

  /** _dns_update_an. */
  function UpdateItem(b: seq<byte>, p: nat, param: Param): (Upd, nat) {
    var h := DecodeHeadAt(b, p, MAX_CNAME_LEN, 10);
    if h.None? then (Upd(b, false), p)
    else
      var q := h.value.1;
      if Int(b, q + 4) >= 0x8000_0000 || q + 10 + Short(b, q + 8) > |b| then (Upd(b, false), p)
      else
        var u := UpdateOwner(b, p, h.value.0, param);
        if !u.ok then (u, p)
        else if Short(b, q) == T_OPT || param.ipTtl < 0 then (u, q + 10 + Short(b, q + 8))
        else (Upd(Write(u.b, q + 4, IntBytes(param.ipTtl)), true), q + 10 + Short(b, q + 8))
  }

  function UpdateQuestions(b: seq<byte>, p: nat, count: nat, param: Param): (Upd, nat)
    decreases count
  {
    if count == 0 then (Upd(b, true), p)
    else
      var (u, q) := UpdateQuestion(b, p, param);
      if !u.ok then (u, q) else UpdateQuestions(u.b, q, count - 1, param)
  }

  /** The three section loops of _dns_update_body run one after the other. */
  function UpdateItems(b: seq<byte>, p: nat, count: nat, param: Param): (Upd, nat)
    decreases count
  {
    if count == 0 then (Upd(b, true), p)
    else
      var (u, q) := UpdateItem(b, p, param);
      if !u.ok then (u, q) else UpdateItems(u.b, q, count - 1, param)
  }

  /** dns_packet_update. */
  function UpdateMessage(b: seq<byte>, param: Param): Upd {
    if |b| < 12 then Upd(b, false)
    else
      var (q, p) := UpdateQuestions(Write(b, 0, ShortBytes(param.id)), 12, Short(b, 4), param);
      if !q.ok then q else UpdateItems(q.b, p, Short(b, 6) + Short(b, 8) + Short(b, 10), param).0
  }

  method CopyInto(data: array<byte>, at: nat, text: Text)
    requires at + |text| <= data.Length
    modifies data
    ensures data[..] == Write(old(data[..]), at, text)
  {
    forall i | 0 <= i < |text| {
      data[at + i] := text[i];
    }
    assert data[..] == Write(old(data[..]), at, text);
  }

  predicate GivesUp(b: seq<byte>, p: nat, jump: nat, processed: nat, domain: Text) {
    || p >= |b| || jump > MAX_JUMPS || processed > |domain| + 1
    || (b[p] >= 0xC0 && p + 2 > |b|)
    || (0 < b[p] < 0xC0 && (processed + b[p] > |domain| || p + 1 + b[p] > |b|))
  }

  /** One iteration of the loop, by the byte at p. */
  lemma UpdateStep(b: seq<byte>, p: nat, jump: nat, processed: nat, output: nat, domain: Text)
    ensures var r := UpdateLoop(b, p, jump, processed, output, domain);
            if GivesUp(b, p, jump, processed, domain) then r == Upd(b, false)
            else if b[p] == 0 then r == Upd(b, output == |domain|)
            else if b[p] >= 0xC0 then r == UpdateLoop(b, Target(b, p), jump + 1, processed, output, domain)
            else r == UpdateLoop(Write(b, p + 1, domain[processed..processed + b[p]]), p + 1 + b[p], 0,
                                 processed + b[p] + 1, (if output > 0 then output + 1 else 0) + b[p], domain)
  {
    hide Write;
  }

  /** _dns_update_domain in place. */
  method UpdateDomain(data: array<byte>, start: nat, domain: Text) returns (ok: bool)
    modifies data
    ensures Upd(data[..], ok) == UpdateLoop(old(data[..]), start, 0, 0, 0, domain)
  {
    hide Write, UpdateLoop;
    var ptr: nat, jump: nat, processed: nat, output: nat := start, 0, 0, 0;
    ghost var b := data[..];
    while true
      invariant data[..] == b
      invariant UpdateLoop(b, ptr, jump, processed, output, domain) == UpdateLoop(old(data[..]), start, 0, 0, 0, domain)
      decreases |domain| + 2 - processed, MAX_JUMPS + 1 - jump
    {
      UpdateStep(b, ptr, jump, processed, output, domain);
      if ptr >= data.Length || jump > MAX_JUMPS || processed > |domain| + 1 {
        return false;
      }
      var len := data[ptr];
      if len == 0 {
        return output == |domain|;
      }
      if len >= 0xC0 {
        if ptr + 2 > data.Length {
          return false;
        }
        ptr := (data[ptr] as int * 256 + data[ptr + 1] as int) % 0x4000;
        jump := jump + 1;
        continue;
      }
      jump := 0;
      if output > 0 {
        output := output + 1;
      }
      ptr := ptr + 1;
      if processed + len > |domain| || ptr + len > data.Length {
        return false;
      }
      CopyInto(data, ptr, domain[processed..processed + len]);
      b := data[..];
      ptr := ptr + len;
      processed := processed + len + 1;
      output := output + len;
    }
  }
}
