/**
 * The heap of the DNS cache (src/dns_cache.c): entries with their counters and timers, the recency
 * list, data blocks and the two totals. After every elementary step all counters are exact, counting
 * the references that callers and running code hold (handles, dataHandles).
 */
module CacheSteps {
  import opened Bytes
  import opened NameDecode
  import opened Update

  type EntryId = nat
  type DataId = nat

  /** sizeof(struct dns_cache_data). */
  const DATA_HEAD: nat := 24

  datatype Key = Key(domain: Text, qtype: nat, group: Text, flag: nat)
  datatype Info = Info(rcode: int, ttl: int, speed: int, timeout: int, hitnum: int, hitAdd: int)
  datatype Entry = Entry(ref: int, key: Key, info: Info, data: Option<DataId>, timer: bool)
  datatype Data = Data(ref: int, size: nat)

  /** What a lookup can see of an entry. */
  datatype Record = Record(key: Key, info: Info, data: Option<DataId>)

  predicate SameKey(a: Key, b: Key) {
    CaseEq(a.domain, b.domain) && a.qtype == b.qtype && a.group == b.group && a.flag == b.flag
  }

  /** uncharged entries are counted in num and not yet in mem. */
  datatype State = State(entries: map<EntryId, Entry>, list: seq<EntryId>, data: map<DataId, Data>, num: int, mem: int,
                         handles: multiset<EntryId>, dataHandles: multiset<DataId>, uncharged: nat, unit: nat)

  function One(b: bool): int {
    if b then 1 else 0
  }

  /** An entry's ref is linked, plus timer pending, plus handles; a pending timer means linked. */
  ghost predicate EntriesCounted(entries: map<EntryId, Entry>, list: seq<EntryId>, handles: multiset<EntryId>) {
    forall e :: e in entries ==>
      entries[e].ref == One(e in list) + One(entries[e].timer) + handles[e] && (entries[e].timer ==> e in list)
  }

  ghost function Pointing(entries: map<EntryId, Entry>, d: DataId): set<EntryId> {
    set e | e in entries && entries[e].data == Some(d)
  }

  /** A data block's ref is the entries pointing to it plus the callers' references. */
  ghost predicate DataCounted(entries: map<EntryId, Entry>, data: map<DataId, Data>, dataHandles: multiset<DataId>) {
    forall d :: d in data ==> data[d].ref == |Pointing(entries, d)| + dataHandles[d] && data[d].ref > 0
  }

  ghost predicate ListOk(entries: map<EntryId, Entry>, list: seq<EntryId>) {
    && (forall i :: 0 <= i < |list| ==> list[i] in entries)
    && (forall i, j :: 0 <= i < j < |list| ==> list[i] != list[j])
  }

  ghost predicate HandlesOk(entries: map<EntryId, Entry>, handles: multiset<EntryId>) {
    forall e :: e in handles ==> e in entries
  }

  ghost predicate DataOk(entries: map<EntryId, Entry>, data: map<DataId, Data>, dataHandles: multiset<DataId>) {
    && (forall d :: d in dataHandles ==> d in data)
    && (forall e :: e in entries && entries[e].data.Some? ==> entries[e].data.value in data)
  }

  ghost function DataSum(data: map<DataId, Data>): nat
    decreases |data|
  {
    if data == map[] then 0
    else
      var d :| d in data;
      DATA_HEAD + data[d].size + DataSum(data - {d})
  }

  /** num and mem_size are what is there. */
  ghost predicate Totals(entries: nat, sum: nat, num: int, mem: int, uncharged: nat, unit: nat) {
    uncharged <= entries && num == entries && mem == unit * (entries - uncharged) + sum
  }

  ghost predicate Accounts(s: State) {
    Totals(|s.entries|, DataSum(s.data), s.num, s.mem, s.uncharged, s.unit)
  }

  /** At most one linked entry per key. */
  ghost predicate Unique(entries: map<EntryId, Entry>, list: seq<EntryId>)
    requires ListOk(entries, list)
  {
    forall i, j :: 0 <= i < j < |list| ==> !SameKey(entries[list[i]].key, entries[list[j]].key)
  }

  ghost predicate Counted(s: State) {
    && EntriesCounted(s.entries, s.list, s.handles) && DataCounted(s.entries, s.data, s.dataHandles)
    && ListOk(s.entries, s.list) && HandlesOk(s.entries, s.handles) && DataOk(s.entries, s.data, s.dataHandles)
    && Accounts(s) && Unique(s.entries, s.list)
  }

  function RecordOf(e: Entry): Record {
    Record(e.key, e.info, e.data)
  }

  /** The cache as lookups see it: the linked entries, least recent first. */
  ghost function Records(entries: map<EntryId, Entry>, list: seq<EntryId>): (r: seq<Record>)
    requires ListOk(entries, list)
    ensures |r| == |list| && forall i :: 0 <= i < |r| ==> r[i] == RecordOf(entries[list[i]])
  {
    seq(|list|, i requires 0 <= i < |list| => RecordOf(entries[list[i]]))
  }

  ghost function Shown(s: State): seq<Record> {
    if ListOk(s.entries, s.list) then Records(s.entries, s.list) else []
  }

  // ---- Sums ----

  lemma {:induction false} SumWithout(data: map<DataId, Data>, d: DataId)
    requires d in data
    ensures DataSum(data) == DATA_HEAD + data[d].size + DataSum(data - {d})
    decreases |data|
  {
    var c :| c in data && DataSum(data) == DATA_HEAD + data[c].size + DataSum(data - {c});
    if c != d {
      SumWithout(data - {c}, d);
      SumWithout(data - {d}, c);
      assert data - {c} - {d} == data - {d} - {c};
    }
  }

  lemma SumSet(data: map<DataId, Data>, d: DataId, x: Data)
    ensures DataSum(data[d := x]) == DATA_HEAD + x.size + DataSum(data - {d})
  {
    SumWithout(data[d := x], d);
    assert data[d := x] - {d} == data - {d};
  }

  lemma SumAdd(data: map<DataId, Data>, d: DataId, x: Data)
    ensures d !in data ==> DataSum(data[d := x]) == DATA_HEAD + x.size + DataSum(data)
    ensures d in data && x.size == data[d].size ==> DataSum(data[d := x]) == DataSum(data)
  {
    SumSet(data, d, x);
    if d in data {
      SumWithout(data, d);
    } else {
      assert data - {d} == data;
    }
  }

  // ---- Who points where ----

  lemma PointingSet(entries: map<EntryId, Entry>, e: EntryId, x: Entry, d: DataId)
    ensures |Pointing(entries[e := x], d)|
            == |Pointing(entries, d)| - One(e in entries && entries[e].data == Some(d)) + One(x.data == Some(d))
  {
    var A, B := Pointing(entries, d), Pointing(entries[e := x], d);
    assert e in entries && entries[e].data == Some(d) <==> e in A;
    assert forall y :: y != e ==> (y in B <==> y in A);
    if x.data == Some(d) {
      assert B == (A - {e}) + {e};
    } else {
      assert B == A - {e};
    }
  }

  lemma PointingDel(entries: map<EntryId, Entry>, e: EntryId, d: DataId)
    ensures |Pointing(entries - {e}, d)| == |Pointing(entries, d)| - One(e in entries && entries[e].data == Some(d))
  {
    var A := Pointing(entries, d);
    assert Pointing(entries - {e}, d) == A - {e};
    assert e in entries && entries[e].data == Some(d) <==> e in A;
  }

  // ---- Entries ----

  /** An entry changes, but not its key, data or place: the data counters and totals stay. */
  lemma EntrySet(s: State, e: EntryId, x: Entry)
    requires Counted(s) && e in s.entries && x.data == s.entries[e].data && x.key == s.entries[e].key
    ensures var entries' := s.entries[e := x];
            && DataCounted(entries', s.data, s.dataHandles) && ListOk(entries', s.list) && DataOk(entries', s.data, s.dataHandles)
            && |entries'| == |s.entries| && Unique(entries', s.list)
            && (HandlesOk(s.entries, s.handles) ==> HandlesOk(entries', s.handles))
            && (x.info == s.entries[e].info ==> Records(entries', s.list) == Shown(s))
  {
    hide EntriesCounted, Pointing, DataSum, SameKey, HandlesOk;
    var entries' := s.entries[e := x];
    forall d ensures |Pointing(entries', d)| == |Pointing(s.entries, d)| {
      PointingSet(s.entries, e, x, d);
    }
    assert entries'.Keys == s.entries.Keys;
    assert |entries'| == |s.entries| by { KeysSize(s.entries, entries'); }
    HandlesSame(s.entries, entries', s.handles);
    if x.info == s.entries[e].info {
      assert forall i :: 0 <= i < |s.list| ==> RecordOf(entries'[s.list[i]]) == RecordOf(s.entries[s.list[i]]);
    }
  }

  lemma KeysSize<K, V>(m: map<K, V>, n: map<K, V>)
    requires m.Keys == n.Keys
    ensures |m| == |n|
  {
    assert |m| == |m.Keys| && |n| == |n.Keys|;
  }

  lemma HandlesSame(entries: map<EntryId, Entry>, entries': map<EntryId, Entry>, handles: multiset<EntryId>)
    requires entries'.Keys == entries.Keys
    ensures HandlesOk(entries, handles) ==> HandlesOk(entries', handles)
  {
  }

  function WithRef(s: State, e: EntryId, n: int): map<EntryId, Entry>
    requires e in s.entries
  {
    s.entries[e := s.entries[e].(ref := n)]
  }

  /** One entry and its handles change together. */
  lemma CountEntry(entries: map<EntryId, Entry>, list: seq<EntryId>, handles: multiset<EntryId>, e: EntryId, x: Entry, handles': multiset<EntryId>)
    requires EntriesCounted(entries, list, handles) && HandlesOk(entries, handles) && e in entries
    requires x.ref == One(e in list) + One(x.timer) + handles'[e] && (x.timer ==> e in list)
    requires handles' == handles + multiset{e} || handles' == handles - multiset{e} || handles' == handles
    ensures EntriesCounted(entries[e := x], list, handles') && HandlesOk(entries[e := x], handles')
  {
  }

  function GetEntry(s: State, e: EntryId): State
    requires e in s.entries
  {
    s.(entries := WithRef(s, e, s.entries[e].ref + 1), handles := s.handles + multiset{e})
  }

  lemma GetEntryKeeps(s: State, e: EntryId)
    requires Counted(s) && e in s.entries
    ensures Counted(GetEntry(s, e)) && Shown(GetEntry(s, e)) == Shown(s)
  {
    hide DataCounted, ListOk, DataOk, Totals, DataSum, Unique, Records, EntriesCounted, HandlesOk;
    EntryRef(s, e);
    CountEntry(s.entries, s.list, s.handles, e, s.entries[e].(ref := s.entries[e].ref + 1), s.handles + multiset{e});
    EntrySet(s, e, s.entries[e].(ref := s.entries[e].ref + 1));
  }

  lemma EntryRef(s: State, e: EntryId)
    requires Counted(s) && e in s.entries
    ensures s.entries[e].ref == One(e in s.list) + One(s.entries[e].timer) + s.handles[e] && (s.entries[e].timer ==> e in s.list)
  {
    hide DataCounted, ListOk, DataOk, Totals, DataSum, Unique, HandlesOk;
  }

  lemma HandleExists(s: State, e: EntryId)
    requires Counted(s) && e in s.handles
    ensures e in s.entries && s.handles[e] >= 1
  {
    hide DataCounted, ListOk, DataOk, Totals, DataSum, Unique, EntriesCounted;
  }

  function PutEntry(s: State, e: EntryId): State
    requires e in s.entries
  {
    s.(entries := WithRef(s, e, s.entries[e].ref - 1), handles := s.handles - multiset{e})
  }

  lemma PutEntryKeeps(s: State, e: EntryId)
    requires Counted(s) && e in s.handles
    ensures e in s.entries && s.entries[e].ref > 0
    ensures Counted(PutEntry(s, e)) && Shown(PutEntry(s, e)) == Shown(s)
  {
    hide DataCounted, ListOk, DataOk, Totals, DataSum, Unique, Records, EntriesCounted, HandlesOk;
    HandleExists(s, e);
    EntryRef(s, e);
    CountEntry(s.entries, s.list, s.handles, e, s.entries[e].(ref := s.entries[e].ref - 1), s.handles - multiset{e});
    EntrySet(s, e, s.entries[e].(ref := s.entries[e].ref - 1));
  }

  /** A dead entry is freed; its reference to the data is in flight. */
  function DropEntry(s: State, e: EntryId): State
    requires e in s.entries
  {
    s.(entries := s.entries - {e}, num := s.num - 1, mem := s.mem - s.unit,
       dataHandles := s.dataHandles + (if s.entries[e].data.Some? then multiset{s.entries[e].data.value} else multiset{}))
  }

  /** When the counter reaches zero the entry is off the list and its timer is not pending. */
  lemma DropEntryKeeps(s: State, e: EntryId)
    requires Counted(s) && e in s.entries && s.entries[e].ref == 0 && s.uncharged < |s.entries|
    ensures e !in s.list && !s.entries[e].timer
    ensures Counted(DropEntry(s, e)) && Shown(DropEntry(s, e)) == Shown(s)
  {
    hide Pointing, DataSum, SameKey, Records, DataCounted, DataOk;
    assert e !in s.list && s.handles[e] == 0;
    DropData(s, e);
    var s' := DropEntry(s, e);
    assert |s'.entries| == |s.entries| - 1 by { KeysLess(s.entries, e); }
    UnitTimes(s.unit, |s.entries|, s.uncharged);
    assert Shown(s') == Shown(s) by { SameShown(s, s'); }
  }

  lemma KeysLess<K, V>(m: map<K, V>, k: K)
    requires k in m
    ensures |m - {k}| == |m| - 1
  {
    assert (m - {k}).Keys == m.Keys - {k};
    assert |m| == |m.Keys| && |m - {k}| == |(m - {k}).Keys|;
  }

  lemma KeysMore<K, V>(m: map<K, V>, k: K, v: V)
    requires k !in m
    ensures |m[k := v]| == |m| + 1
  {
    assert (m[k := v]).Keys == m.Keys + {k};
    assert |m| == |m.Keys| && |m[k := v]| == |(m[k := v]).Keys|;
  }

  lemma UnitTimes(unit: nat, n: int, u: int)
    ensures unit * (n - 1 - u) == unit * (n - u) - unit
    ensures unit * (n + 1 - u - 1) == unit * (n - u)
  {
  }

  lemma SameShown(s: State, s': State)
    requires ListOk(s.entries, s.list) && ListOk(s'.entries, s'.list) && s'.list == s.list
    requires forall i :: 0 <= i < |s.list| ==> RecordOf(s'.entries[s.list[i]]) == RecordOf(s.entries[s.list[i]])
    ensures Shown(s') == Shown(s)
  {
  }

  lemma DropData(s: State, e: EntryId)
    requires DataCounted(s.entries, s.data, s.dataHandles) && DataOk(s.entries, s.data, s.dataHandles) && e in s.entries
    ensures var s' := DropEntry(s, e); DataCounted(s'.entries, s'.data, s'.dataHandles) && DataOk(s'.entries, s'.data, s'.dataHandles)
  {
    hide Pointing;
    var s' := DropEntry(s, e);
    forall d | d in s.data ensures s.data[d].ref == |Pointing(s'.entries, d)| + s'.dataHandles[d] {
      PointingDel(s.entries, e, d);
    }
  }

  /** A new entry with one reference, taking over the caller's reference to the data; not yet in mem. */
  function AddEntry(s: State, e: EntryId, key: Key, info: Info, d: DataId): State {
    s.(entries := s.entries[e := Entry(1, key, info, Some(d), false)], num := s.num + 1, uncharged := s.uncharged + 1,
       handles := s.handles + multiset{e}, dataHandles := s.dataHandles - multiset{d})
  }

  lemma AddEntryKeeps(s: State, e: EntryId, key: Key, info: Info, d: DataId)
    requires Counted(s) && e !in s.entries && d in s.dataHandles
    ensures Counted(AddEntry(s, e, key, info, d)) && Shown(AddEntry(s, e, key, info, d)) == Shown(s)
  {
    hide Pointing, DataSum, Unique, Records, DataCounted, DataOk, EntriesCounted, HandlesOk, ListOk;
    var s' := AddEntry(s, e, key, info, d);
    AddData(s, e, key, info, d);
    AddCount(s, e, s'.entries[e]);
    AddListed(s, s', e);
    assert |s'.entries| == |s.entries| + 1 by { KeysMore(s.entries, e, s'.entries[e]); }
    UnitTimes(s.unit, |s.entries|, s.uncharged);
  }

  lemma AddCount(s: State, e: EntryId, x: Entry)
    requires EntriesCounted(s.entries, s.list, s.handles) && HandlesOk(s.entries, s.handles) && ListOk(s.entries, s.list)
    requires e !in s.entries && x.ref == 1 && !x.timer
    ensures EntriesCounted(s.entries[e := x], s.list, s.handles + multiset{e}) && HandlesOk(s.entries[e := x], s.handles + multiset{e})
  {
    assert e !in s.list && s.handles[e] == 0;
  }

  lemma AddListed(s: State, s': State, e: EntryId)
    requires ListOk(s.entries, s.list) && Unique(s.entries, s.list) && e !in s.entries && s'.list == s.list
    requires e in s'.entries && s'.entries == s.entries[e := s'.entries[e]]
    ensures ListOk(s'.entries, s'.list) && Unique(s'.entries, s'.list) && Shown(s') == Shown(s)
  {
    hide SameKey;
  }

  lemma AddData(s: State, e: EntryId, key: Key, info: Info, d: DataId)
    requires DataCounted(s.entries, s.data, s.dataHandles) && DataOk(s.entries, s.data, s.dataHandles) && e !in s.entries && d in s.dataHandles
    ensures var s' := AddEntry(s, e, key, info, d); DataCounted(s'.entries, s'.data, s'.dataHandles) && DataOk(s'.entries, s'.data, s'.dataHandles)
  {
    hide Pointing;
    var s' := AddEntry(s, e, key, info, d);
    forall c | c in s.data ensures s.data[c].ref == |Pointing(s'.entries, c)| + s'.dataHandles[c] {
      PointingSet(s.entries, e, s'.entries[e], c);
    }
  }

  function Charge(s: State): State
    requires s.uncharged > 0
  {
    s.(mem := s.mem + s.unit, uncharged := s.uncharged - 1)
  }

  lemma ChargeKeeps(s: State)
    requires Counted(s) && s.uncharged > 0
    ensures Counted(Charge(s)) && Shown(Charge(s)) == Shown(s)
  {
    hide EntriesCounted, DataCounted, HandlesOk, DataOk, DataSum, SameKey;
    UnitTimes(s.unit, |s.entries|, s.uncharged - 1);
  }

  // ---- The list ----

  /** The entry at position i leaves the list; the list's reference is in flight. */
  function UnlinkAt(s: State, i: nat): State
    requires i < |s.list|
  {
    s.(list := s.list[..i] + s.list[i + 1..], handles := s.handles + multiset{s.list[i]})
  }

  /** An entry whose timer is not pending leaves the list. */
  lemma UnlinkAtKeeps(s: State, i: nat)
    requires Counted(s) && i < |s.list| && s.list[i] in s.entries && !s.entries[s.list[i]].timer
    ensures Counted(UnlinkAt(s, i)) && Shown(UnlinkAt(s, i)) == Shown(s)[..i] + Shown(s)[i + 1..]
  {
    hide DataCounted, DataOk, Totals, DataSum, SameKey, HandlesOk, EntriesCounted, Unique;
    var list' := s.list[..i] + s.list[i + 1..];
    ListLess(s.list, i);
    CountUnlinked(s, i);
    UniqueLess(s.entries, s.list, i);
    assert Records(s.entries, list') == Shown(s)[..i] + Shown(s)[i + 1..];
  }

  lemma ListLess(list: seq<EntryId>, i: nat)
    requires i < |list| && forall j, k :: 0 <= j < k < |list| ==> list[j] != list[k]
    ensures var list' := list[..i] + list[i + 1..];
            && (forall j, k :: 0 <= j < k < |list'| ==> list'[j] != list'[k])
            && (forall e :: e in list' <==> e in list && e != list[i])
  {
    var list' := list[..i] + list[i + 1..];
    assert forall j :: 0 <= j < |list'| ==> list'[j] == list[if j < i then j else j + 1];
    forall e ensures e in list' <==> e in list && e != list[i] {
      if e in list && e != list[i] {
        var k :| 0 <= k < |list| && list[k] == e;
        assert list'[if k < i then k else k - 1] == e;
      }
    }
  }

  lemma CountUnlinked(s: State, i: nat)
    requires EntriesCounted(s.entries, s.list, s.handles) && HandlesOk(s.entries, s.handles) && i < |s.list|
    requires s.list[i] in s.entries && !s.entries[s.list[i]].timer
    requires forall e :: e in s.list[..i] + s.list[i + 1..] <==> e in s.list && e != s.list[i]
    ensures EntriesCounted(s.entries, s.list[..i] + s.list[i + 1..], s.handles + multiset{s.list[i]})
    ensures HandlesOk(s.entries, s.handles + multiset{s.list[i]})
  {
    var list' := s.list[..i] + s.list[i + 1..];
    assert s.list[i] in s.list;
    forall e | e in s.entries
      ensures s.entries[e].ref == One(e in list') + One(s.entries[e].timer) + (s.handles + multiset{s.list[i]})[e]
      ensures s.entries[e].timer ==> e in list'
    {
      assert e in list' <==> e in s.list && e != s.list[i];
    }
  }

  lemma UniqueLess(entries: map<EntryId, Entry>, list: seq<EntryId>, i: nat)
    requires ListOk(entries, list) && Unique(entries, list) && i < |list|
    ensures var list' := list[..i] + list[i + 1..]; ListOk(entries, list') && Unique(entries, list')
  {
    hide SameKey;
    var list' := list[..i] + list[i + 1..];
    assert forall j :: 0 <= j < |list'| ==> list'[j] == list[if j < i then j else j + 1];
  }

  function Link(s: State, e: EntryId): State {
    s.(list := s.list + [e], handles := s.handles - multiset{e})
  }

  /** A referenced entry joins the list at the tail, when no linked one has its key. */
  lemma LinkKeeps(s: State, e: EntryId)
    requires Counted(s) && e in s.handles && e in s.entries && e !in s.list
    requires forall i :: 0 <= i < |s.list| ==> !SameKey(s.entries[s.list[i]].key, s.entries[e].key)
    ensures Counted(Link(s, e)) && Shown(Link(s, e)) == Shown(s) + [RecordOf(s.entries[e])]
  {
    hide DataCounted, DataOk, Totals, DataSum, SameKey, HandlesOk, EntriesCounted;
    CountLinked(s, e);
    assert forall i :: 0 <= i < |s.list| ==> s.list[i] != e;
    assert Records(s.entries, s.list + [e]) == Shown(s) + [RecordOf(s.entries[e])];
  }

  lemma CountLinked(s: State, e: EntryId)
    requires EntriesCounted(s.entries, s.list, s.handles) && HandlesOk(s.entries, s.handles) && e in s.handles && e !in s.list
    ensures EntriesCounted(s.entries, s.list + [e], s.handles - multiset{e}) && HandlesOk(s.entries, s.handles - multiset{e})
  {
  }

  /** Unlinked and linked again at the tail. */
  function MoveToTail(s: State, i: nat): State
    requires i < |s.list|
  {
    s.(list := s.list[..i] + s.list[i + 1..] + [s.list[i]])
  }

  lemma MoveToTailKeeps(s: State, i: nat)
    requires Counted(s) && i < |s.list|
    ensures Counted(MoveToTail(s, i)) && Shown(MoveToTail(s, i)) == Shown(s)[..i] + Shown(s)[i + 1..] + [Shown(s)[i]]
  {
    hide DataCounted, DataOk, Totals, DataSum, Unique, ListOk, HandlesOk, EntriesCounted, Records;
    MoveOk(s, i);
    CountMoved(s, i);
    MoveShown(s.entries, s.list, MoveToTail(s, i).list, i);
  }

  lemma MoveShown(entries: map<EntryId, Entry>, list: seq<EntryId>, list': seq<EntryId>, i: nat)
    requires ListOk(entries, list) && ListOk(entries, list') && i < |list| && list' == list[..i] + list[i + 1..] + [list[i]]
    ensures var r := Records(entries, list); Records(entries, list') == r[..i] + r[i + 1..] + [r[i]]
  {
    var r := Records(entries, list);
    var r' := r[..i] + r[i + 1..] + [r[i]];
    forall j | 0 <= j < |list| ensures Records(entries, list')[j] == r'[j] {
      if j < |list| - 1 {
        assert list'[j] == list[if j < i then j else j + 1];
      }
    }
  }

  lemma MoveOk(s: State, i: nat)
    requires ListOk(s.entries, s.list) && Unique(s.entries, s.list) && i < |s.list|
    ensures var list' := MoveToTail(s, i).list; ListOk(s.entries, list') && Unique(s.entries, list')
  {
    hide SameKey;
    var list' := MoveToTail(s, i).list;
    UniqueLess(s.entries, s.list, i);
    forall j | 0 <= j < |list'| - 1
      ensures list'[j] != s.list[i] && !SameKey(s.entries[list'[j]].key, s.entries[s.list[i]].key)
    {
      var k := if j < i then j else j + 1;
      assert list'[j] == s.list[k];
      SameKeyFlip(s.entries[s.list[i]].key, s.entries[s.list[k]].key);
    }
    var short := s.list[..i] + s.list[i + 1..];
    assert forall j :: 0 <= j < |short| ==> list'[j] == short[j];
  }

  lemma SameKeyFlip(a: Key, b: Key)
    ensures SameKey(a, b) == SameKey(b, a)
  {
  }

  lemma SameKeyTrans(a: Key, b: Key, c: Key)
    requires SameKey(a, b) && SameKey(b, c)
    ensures SameKey(a, c)
  {
  }

  lemma CountMoved(s: State, i: nat)
    requires EntriesCounted(s.entries, s.list, s.handles) && i < |s.list|
    ensures EntriesCounted(s.entries, MoveToTail(s, i).list, s.handles)
  {
    var list' := MoveToTail(s, i).list;
    assert s.list == s.list[..i] + [s.list[i]] + s.list[i + 1..];
    assert forall e :: e in list' <==> e in s.list;
  }

  // ---- Timers ----

  /** The timer takes a reference over. */
  function Arm(s: State, e: EntryId): State
    requires e in s.entries
  {
    s.(entries := s.entries[e := s.entries[e].(timer := true)], handles := s.handles - multiset{e})
  }

  lemma ArmKeeps(s: State, e: EntryId)
    requires Counted(s) && e in s.handles && e in s.entries && e in s.list && !s.entries[e].timer
    ensures Counted(Arm(s, e)) && Shown(Arm(s, e)) == Shown(s)
  {
    hide DataCounted, ListOk, DataOk, Totals, DataSum, Unique, Records, EntriesCounted, HandlesOk;
    HandleExists(s, e);
    EntryRef(s, e);
    CountEntry(s.entries, s.list, s.handles, e, s.entries[e].(timer := true), s.handles - multiset{e});
    EntrySet(s, e, s.entries[e].(timer := true));
  }

  /** The timer is no longer pending; its reference is in flight. */
  function Disarm(s: State, e: EntryId): State
    requires e in s.entries
  {
    s.(entries := s.entries[e := s.entries[e].(timer := false)], handles := s.handles + multiset{e})
  }

  lemma DisarmKeeps(s: State, e: EntryId)
    requires Counted(s) && e in s.entries && s.entries[e].timer
    ensures Counted(Disarm(s, e)) && Shown(Disarm(s, e)) == Shown(s)
  {
    hide DataCounted, ListOk, DataOk, Totals, DataSum, Unique, Records, EntriesCounted, HandlesOk;
    EntryRef(s, e);
    CountEntry(s.entries, s.list, s.handles, e, s.entries[e].(timer := false), s.handles + multiset{e});
    EntrySet(s, e, s.entries[e].(timer := false));
  }

  // ---- Contents ----

  function SetInfo(s: State, e: EntryId, info: Info): State
    requires e in s.entries
  {
    s.(entries := s.entries[e := s.entries[e].(info := info)])
  }

  lemma SetInfoKeeps(s: State, i: nat, info: Info)
    requires Counted(s) && i < |s.list| && s.list[i] in s.entries
    ensures Counted(SetInfo(s, s.list[i], info)) && Shown(SetInfo(s, s.list[i], info)) == Shown(s)[i := Shown(s)[i].(info := info)]
  {
    hide DataCounted, DataOk, Totals, DataSum, Unique, EntriesCounted, HandlesOk;
    var e := s.list[i];
    EntryRef(s, e);
    CountEntry(s.entries, s.list, s.handles, e, s.entries[e].(info := info), s.handles);
    EntrySet(s, e, s.entries[e].(info := info));
  }

  /** The entry takes over the caller's reference to d; its old data is in flight. */
  function SetData(s: State, e: EntryId, d: DataId): State
    requires e in s.entries
  {
    s.(entries := s.entries[e := s.entries[e].(data := Some(d))],
       dataHandles := s.dataHandles - multiset{d} + (if s.entries[e].data.Some? then multiset{s.entries[e].data.value} else multiset{}))
  }

  lemma SetDataKeeps(s: State, i: nat, d: DataId)
    requires Counted(s) && i < |s.list| && s.list[i] in s.entries && d in s.dataHandles
    ensures Counted(SetData(s, s.list[i], d)) && Shown(SetData(s, s.list[i], d)) == Shown(s)[i := Shown(s)[i].(data := Some(d))]
  {
    hide DataCounted, DataOk, Totals, DataSum, EntriesCounted, HandlesOk, SameKey;
    var e := s.list[i];
    var x := s.entries[e].(data := Some(d));
    EntryRef(s, e);
    CountEntry(s.entries, s.list, s.handles, e, x, s.handles);
    SwapData(s, e, d);
    assert |s.entries[e := x]| == |s.entries| by { KeysSize(s.entries, s.entries[e := x]); }
  }

  lemma SwapData(s: State, e: EntryId, d: DataId)
    requires DataCounted(s.entries, s.data, s.dataHandles) && DataOk(s.entries, s.data, s.dataHandles) && e in s.entries && d in s.dataHandles
    ensures var s' := SetData(s, e, d); DataCounted(s'.entries, s'.data, s'.dataHandles) && DataOk(s'.entries, s'.data, s'.dataHandles)
  {
    hide Pointing;
    var s' := SetData(s, e, d);
    forall c | c in s.data ensures s.data[c].ref == |Pointing(s'.entries, c)| + s'.dataHandles[c] {
      PointingSet(s.entries, e, s'.entries[e], c);
    }
  }

  // ---- Data blocks ----

  function NewData(s: State, d: DataId, size: nat): State {
    s.(data := s.data[d := Data(1, size)], mem := s.mem + DATA_HEAD + size, dataHandles := s.dataHandles + multiset{d})
  }

  lemma NewDataKeeps(s: State, d: DataId, size: nat)
    requires Counted(s) && d !in s.data
    ensures Counted(NewData(s, d, size)) && Shown(NewData(s, d, size)) == Shown(s)
  {
    hide EntriesCounted, HandlesOk, ListOk, Unique, Records, DataSum, DataCounted;
    SumAdd(s.data, d, Data(1, size));
    CountNewData(s, d, size);
  }

  lemma CountNewData(s: State, d: DataId, size: nat)
    requires DataCounted(s.entries, s.data, s.dataHandles) && DataOk(s.entries, s.data, s.dataHandles) && d !in s.data
    ensures DataCounted(s.entries, s.data[d := Data(1, size)], s.dataHandles + multiset{d})
  {
    assert Pointing(s.entries, d) == {};
  }

  function GetData(s: State, d: DataId): State
    requires d in s.data
  {
    s.(data := s.data[d := s.data[d].(ref := s.data[d].ref + 1)], dataHandles := s.dataHandles + multiset{d})
  }

  lemma GetDataKeeps(s: State, d: DataId)
    requires Counted(s) && d in s.data
    ensures Counted(GetData(s, d)) && Shown(GetData(s, d)) == Shown(s)
  {
    hide EntriesCounted, HandlesOk, ListOk, Unique, Records, DataSum, Pointing;
    SumAdd(s.data, d, s.data[d].(ref := s.data[d].ref + 1));
  }

  /** A block whose last reference goes is freed and leaves the total. */
  function PutData(s: State, d: DataId): State
    requires d in s.data
  {
    if s.data[d].ref == 1 then
      s.(data := s.data - {d}, mem := s.mem - (s.data[d].size + DATA_HEAD), dataHandles := s.dataHandles - multiset{d})
    else
      s.(data := s.data[d := s.data[d].(ref := s.data[d].ref - 1)], dataHandles := s.dataHandles - multiset{d})
  }

  lemma PutDataKeeps(s: State, d: DataId)
    requires Counted(s) && d in s.dataHandles
    ensures d in s.data && s.data[d].ref > 0
    ensures Counted(PutData(s, d)) && Shown(PutData(s, d)) == Shown(s)
  {
    hide EntriesCounted, HandlesOk, ListOk, Unique, Records, DataSum, DataCounted, DataOk;
    CountPutData(s, d);
    SumAdd(s.data, d, s.data[d].(ref := s.data[d].ref - 1));
    SumWithout(s.data, d);
  }

  lemma CountPutData(s: State, d: DataId)
    requires DataCounted(s.entries, s.data, s.dataHandles) && DataOk(s.entries, s.data, s.dataHandles) && d in s.dataHandles
    ensures d in s.data && s.data[d].ref > 0
    ensures var s' := PutData(s, d); DataCounted(s.entries, s'.data, s'.dataHandles) && DataOk(s.entries, s'.data, s'.dataHandles)
  {
    hide Pointing;
    assert s.dataHandles[d] >= 1;
    if s.data[d].ref == 1 {
      Unpointed(s.entries, d);
    }
  }

  lemma Unpointed(entries: map<EntryId, Entry>, d: DataId)
    ensures |Pointing(entries, d)| == 0 ==> forall e :: e in entries ==> entries[e].data != Some(d)
  {
    if |Pointing(entries, d)| == 0 {
      assert forall e :: e in entries ==> e !in Pointing(entries, d);
    }
  }
}
