/**
 * The packet arena (src/dns.c): one buffer in which the records of five sections lie in the order they
 * were added, each section a list linked by 16-bit offsets.
 */
module Arena {
  import opened Bytes

  const END: nat := 0xFFFF
  const SECTIONS: nat := 5

  /** sizeof(struct dns_packet) and sizeof(struct dns_rrs). */
  const PACKET_SIZE: nat := 152
  const RRS_SIZE: nat := 16

  /** The fixed part of a record in the arena. */
  datatype Rrs = Rrs(next: nat, len: nat, rtype: nat)

  /** What was added. */
  datatype Rec = Rec(rtype: nat, bytes: seq<byte>)

  /** The offsets of list are linked from start, in increasing order, and end. */
  ghost predicate Chain(heads: map<nat, Rrs>, start: nat, list: seq<nat>) {
    && start == (if list == [] then END else list[0])
    && (forall i :: 0 <= i < |list| ==> list[i] in heads && heads[list[i]].next == (if i + 1 < |list| then list[i + 1] else END))
    && (forall i, j :: 0 <= i < j < |list| ==> list[i] < list[j])
  }

  /** Records lie inside the used part and do not overlap. */
  ghost predicate Packed(heads: map<nat, Rrs>, len: nat) {
    && (forall o :: o in heads ==> o + RRS_SIZE + heads[o].len <= len)
    && (forall o, p :: o in heads && p in heads && o < p ==> o + RRS_SIZE + heads[o].len <= p)
  }

  /** The record at offset o reads as rec. */
  ghost predicate Holds(data: seq<byte>, heads: map<nat, Rrs>, o: nat, rec: Rec) {
    && o in heads && o + RRS_SIZE + heads[o].len <= |data|
    && rec == Rec(heads[o].rtype, data[o + RRS_SIZE..o + RRS_SIZE + heads[o].len])
  }

  ghost predicate Contents(data: seq<byte>, heads: map<nat, Rrs>, list: seq<nat>, recs: seq<Rec>) {
    |recs| == |list| && forall i :: 0 <= i < |list| ==> Holds(data, heads, list[i], recs[i])
  }

  /** No record is in two sections. */
  ghost predicate Apart(lists: seq<seq<nat>>) {
    forall k, m, i, j :: 0 <= k < m < |lists| && 0 <= i < |lists[k]| && 0 <= j < |lists[m]| ==> lists[k][i] != lists[m][j]
  }

  /** Everything about section k. */
  ghost predicate Section(data: seq<byte>, heads: map<nat, Rrs>, start: nat, count: nat, list: seq<nat>, recs: seq<Rec>) {
    Chain(heads, start, list) && Contents(data, heads, list, recs) && count == |list|
  }

  class Packet {
    const size: nat
    const data: array<byte>
    var len: nat
    var starts: seq<nat>
    var counts: seq<nat>
    var heads: map<nat, Rrs>
    ghost var lists: seq<seq<nat>>
    ghost var log: seq<seq<Rec>>

    ghost predicate Valid()
      reads this, data
    {
      && PACKET_SIZE <= size < END && data.Length == size - PACKET_SIZE && len <= data.Length
      && |starts| == |counts| == |lists| == |log| == SECTIONS
      && Packed(heads, len) && Apart(lists)
      && forall k :: 0 <= k < SECTIONS ==> Section(data[..], heads, starts[k], counts[k], lists[k], log[k])
    }

    /** dns_packet_init, for packets smaller than the end mark. */
    constructor (size: nat)
      requires PACKET_SIZE <= size < END
      ensures Valid() && fresh(data) && this.size == size && log == [[], [], [], [], []]
    {
      this.size := size;
      data := new byte[size - PACKET_SIZE];
      len, starts, counts, heads := 0, [END, END, END, END, END], [0, 0, 0, 0, 0], map[];
      lists, log := [[], [], [], [], []], [[], [], [], [], []];
    }

    /** The walk to the last record of section k in _dns_rr_add_end. */
    method Last(k: nat) returns (p: nat)
      requires Valid() && k < SECTIONS && starts[k] != END
      ensures lists[k] != [] && p == lists[k][|lists[k]| - 1] && p in heads
    {
      assert Section(data[..], heads, starts[k], counts[k], lists[k], log[k]);
      Below(this);
      ghost var i := 0;
      p := starts[k];
      while heads[p].next != END
        invariant 0 <= i < |lists[k]| && p == lists[k][i] && p in heads
        decreases |lists[k]| - i
      {
        NextIs(heads, starts[k], lists[k], i);
        i := i + 1;
        p := heads[p].next;
      }
      NextIs(heads, starts[k], lists[k], i);
    }

    /** memcpy behind the record head. */
    method CopyIn(at: nat, bytes: seq<byte>)
      requires at + |bytes| <= data.Length
      modifies data
      ensures data[..] == Write(old(data[..]), at, bytes)
    {
      forall i | 0 <= i < |bytes| {
        data[at + i] := bytes[i];
      }
      assert data[..] == Write(old(data[..]), at, bytes);
    }

    /**
     * Adding a record of the given bytes: _dns_add_rrs_start, the bounded writes, _dns_rr_add_end.
     * It succeeds exactly when head and bytes fit, so the last check rejects nothing the writes let through.
     */
    method Add(k: int, rtype: nat, bytes: seq<byte>) returns (ok: bool)
      requires Valid()
      modifies this, data
      ensures Valid()
      ensures ok <==> 0 <= k < SECTIONS && old(len) + RRS_SIZE + |bytes| <= data.Length
      ensures log == if ok then old(log)[k := old(log)[k] + [Rec(rtype, bytes)]] else old(log)
    {
      if len + RRS_SIZE >= size {
        return false;
      }
      var left := (size - PACKET_SIZE) - (len + RRS_SIZE);
      if left < |bytes| {
        return false;
      }
      ghost var d := data[..];
      CopyIn(len + RRS_SIZE, bytes);
      forall m | 0 <= m < SECTIONS ensures Section(data[..], heads, starts[m], counts[m], lists[m], log[m]) {
        WrittenBehind(d, data[..], heads, len, starts[m], counts[m], lists[m], log[m]);
      }
      ok := AddEnd(k, rtype, |bytes|, bytes);
    }

    /** _dns_rr_add_end. */
    method AddEnd(k: int, rtype: nat, n: nat, ghost bytes: seq<byte>) returns (ok: bool)
      requires Valid() && n == |bytes|
      requires len + RRS_SIZE + n <= data.Length ==> data[len + RRS_SIZE..len + RRS_SIZE + n] == bytes
      modifies this
      ensures Valid() && (ok <==> 0 <= k < SECTIONS && old(len) + n + RRS_SIZE <= data.Length)
      ensures log == if ok then old(log)[k := old(log)[k] + [Rec(rtype, bytes)]] else old(log)
    {
      hide Section, Packed, Apart;
      if len + n > (size - PACKET_SIZE) - RRS_SIZE || k < 0 || k >= SECTIONS {
        return false;
      }
      Nonempty(this, k);
      var heads' := heads;
      if starts[k] != END {
        var p := Last(k);
        heads' := heads[p := heads[p].(next := len)];
      }
      ghost var rec := Rec(rtype, bytes);
      Appended(this, k, heads', Rrs(END, n, rtype), rec);
      if starts[k] == END {
        starts := starts[k := len];
      }
      heads := heads'[len := Rrs(END, n, rtype)];
      counts := counts[k := counts[k] + 1];
      lists, log := lists[k := lists[k] + [len]], log[k := log[k] + [rec]];
      len := len + n + RRS_SIZE;
      ok := true;
    }

    /** Walking a section, as callers do: count records from the start. */
    method Walk(k: nat) returns (recs: seq<Rec>)
      requires Valid() && k < SECTIONS
      ensures recs == log[k]
    {
      assert Section(data[..], heads, starts[k], counts[k], lists[k], log[k]);
      Below(this);
      recs := [];
      var p, i := starts[k], 0;
      while i < counts[k] && p != END
        invariant 0 <= i <= counts[k] && recs == log[k][..i]
        invariant p == if i < |lists[k]| then lists[k][i] else END
      {
        assert Holds(data[..], heads, lists[k][i], log[k][i]);
        NextIs(heads, starts[k], lists[k], i);
        recs := recs + [Rec(heads[p].rtype, data[p + RRS_SIZE..p + RRS_SIZE + heads[p].len])];
        p, i := heads[p].next, i + 1;
      }
    }
  }

  /** Bytes behind the used part do not matter to the records. */
  lemma WrittenBehind(d: seq<byte>, d': seq<byte>, heads: map<nat, Rrs>, len: nat, start: nat, count: nat, list: seq<nat>, recs: seq<Rec>)
    requires Section(d, heads, start, count, list, recs) && Packed(heads, len) && len <= |d| == |d'| && d'[..len] == d[..len]
    ensures Section(d', heads, start, count, list, recs)
  {
    forall i | 0 <= i < |list| ensures Holds(d', heads, list[i], recs[i]) {
      assert Holds(d, heads, list[i], recs[i]);
      var lo, hi := list[i] + RRS_SIZE, list[i] + RRS_SIZE + heads[list[i]].len;
      assert d'[lo..hi] == d'[..len][lo..hi] == d[..len][lo..hi] == d[lo..hi];
    }
  }

  /** The heads after a record was linked behind p, or first. */
  ghost predicate Linked(heads: map<nat, Rrs>, heads': map<nat, Rrs>, list: seq<nat>, at: nat) {
    if list == [] then heads' == heads
    else
      var p := list[|list| - 1];
      p in heads && heads' == heads[p := heads[p].(next := at)]
  }

  lemma AppendChain(heads: map<nat, Rrs>, heads': map<nat, Rrs>, start: nat, list: seq<nat>, len: nat, x: Rrs)
    requires Chain(heads, start, list) && Packed(heads, len) && Linked(heads, heads', list, len) && x.next == END
    ensures Chain(heads'[len := x], if list == [] then len else start, list + [len])
  {
    var h, l := heads'[len := x], list + [len];
    forall i | 0 <= i < |list| ensures l[i] == list[i] && list[i] in heads && list[i] < len && h[list[i]].next == l[i + 1] {
      assert heads[list[i]].next == if i + 1 < |list| then list[i + 1] else END;
      assert i + 1 < |list| ==> list[i] < list[|list| - 1];
    }
  }

  lemma AppendContents(data: seq<byte>, heads: map<nat, Rrs>, heads': map<nat, Rrs>, list: seq<nat>, recs: seq<Rec>, len: nat, x: Rrs, rec: Rec)
    requires Contents(data, heads, list, recs) && Packed(heads, len) && Linked(heads, heads', list, len) && Holds(data, heads'[len := x], len, rec)
    ensures Contents(data, heads'[len := x], list + [len], recs + [rec])
  {
    var h := heads'[len := x];
    forall i | 0 <= i < |list| ensures Holds(data, h, list[i], recs[i]) {
      assert Holds(data, heads, list[i], recs[i]);
    }
  }

  lemma AppendOwn(data: seq<byte>, heads: map<nat, Rrs>, heads': map<nat, Rrs>, start: nat, count: nat, list: seq<nat>, recs: seq<Rec>,
                  len: nat, x: Rrs, rec: Rec)
    requires Section(data, heads, start, count, list, recs) && Packed(heads, len) && Linked(heads, heads', list, len)
    requires x.next == END && Holds(data, heads'[len := x], len, rec)
    ensures Section(data, heads'[len := x], if list == [] then len else start, count + 1, list + [len], recs + [rec])
  {
    hide Chain, Contents, Holds, Packed, Linked;
    AppendChain(heads, heads', start, list, len, x);
    AppendContents(data, heads, heads', list, recs, len, x, rec);
  }

  lemma AppendOther(data: seq<byte>, heads: map<nat, Rrs>, heads': map<nat, Rrs>, start: nat, count: nat, list: seq<nat>, recs: seq<Rec>,
                    own: seq<nat>, len: nat, x: Rrs)
    requires Section(data, heads, start, count, list, recs) && Packed(heads, len) && Linked(heads, heads', own, len)
    requires forall i :: 0 <= i < |list| && own != [] ==> list[i] != own[|own| - 1]
    ensures Section(data, heads'[len := x], start, count, list, recs)
  {
    var h := heads'[len := x];
    forall i | 0 <= i < |list| ensures list[i] in heads && h[list[i]] == heads[list[i]] && Holds(data, h, list[i], recs[i]) {
      assert Holds(data, heads, list[i], recs[i]);
    }
  }

  lemma AppendPacked(heads: map<nat, Rrs>, heads': map<nat, Rrs>, own: seq<nat>, len: nat, x: Rrs)
    requires Packed(heads, len) && Linked(heads, heads', own, len)
    ensures Packed(heads'[len := x], len + RRS_SIZE + x.len)
  {
  }

  /** What AddEnd leaves behind. */
  lemma Appended(a: Packet, k: nat, heads': map<nat, Rrs>, x: Rrs, rec: Rec)
    requires a.Valid() && k < SECTIONS && Linked(a.heads, heads', a.lists[k], a.len) && x.next == END
    requires Holds(a.data[..], heads'[a.len := x], a.len, rec)
    ensures Packed(heads'[a.len := x], a.len + RRS_SIZE + x.len) && Apart(a.lists[k := a.lists[k] + [a.len]])
    ensures var starts' := if a.lists[k] == [] then a.starts[k := a.len] else a.starts;
            forall m :: 0 <= m < SECTIONS ==>
              Section(a.data[..], heads'[a.len := x], starts'[m], a.counts[k := a.counts[k] + 1][m],
                      a.lists[k := a.lists[k] + [a.len]][m], a.log[k := a.log[k] + [rec]][m])
  {
    hide Section, Packed, Linked, Holds, Apart;
    AppendPacked(a.heads, heads', a.lists[k], a.len, x);
    var starts' := if a.lists[k] == [] then a.starts[k := a.len] else a.starts;
    forall m | 0 <= m < SECTIONS
      ensures Section(a.data[..], heads'[a.len := x], starts'[m], a.counts[k := a.counts[k] + 1][m],
                      a.lists[k := a.lists[k] + [a.len]][m], a.log[k := a.log[k] + [rec]][m])
    {
      assert Section(a.data[..], a.heads, a.starts[m], a.counts[m], a.lists[m], a.log[m]);
      if m == k {
        AppendOwn(a.data[..], a.heads, heads', a.starts[k], a.counts[k], a.lists[k], a.log[k], a.len, x, rec);
      } else {
        NotLast(a.lists, k, m);
        AppendOther(a.data[..], a.heads, heads', a.starts[m], a.counts[m], a.lists[m], a.log[m], a.lists[k], a.len, x);
      }
    }
    Below(a);
    AppendApart(a.lists, k, a.len);
  }

  lemma NotLast(lists: seq<seq<nat>>, k: nat, m: nat)
    requires Apart(lists) && k < |lists| && m < |lists| && k != m
    ensures forall i :: 0 <= i < |lists[m]| && lists[k] != [] ==> lists[m][i] != lists[k][|lists[k]| - 1]
  {
  }

  lemma NextIs(heads: map<nat, Rrs>, start: nat, list: seq<nat>, i: nat)
    requires Chain(heads, start, list) && i < |list|
    ensures list[i] in heads && heads[list[i]].next == if i + 1 < |list| then list[i + 1] else END
  {
  }

  lemma AppendApart(lists: seq<seq<nat>>, k: nat, len: nat)
    requires k < |lists| && Apart(lists) && forall m, i :: 0 <= m < |lists| && 0 <= i < |lists[m]| ==> lists[m][i] < len
    ensures Apart(lists[k := lists[k] + [len]])
  {
  }

  lemma Below(a: Packet)
    requires a.Valid()
    ensures forall m, i :: 0 <= m < SECTIONS && 0 <= i < |a.lists[m]| ==> a.lists[m][i] < a.len
  {
    forall m, i | 0 <= m < SECTIONS && 0 <= i < |a.lists[m]| ensures a.lists[m][i] < a.len {
      assert Section(a.data[..], a.heads, a.starts[m], a.counts[m], a.lists[m], a.log[m]);
    }
  }

  lemma Nonempty(a: Packet, k: nat)
    requires a.Valid() && k < SECTIONS
    ensures a.starts[k] == END <==> a.lists[k] == []
  {
    assert Section(a.data[..], a.heads, a.starts[k], a.counts[k], a.lists[k], a.log[k]);
    Below(a);
  }
}
