/**
 * The DNS cache (src/dns_cache.c). Every public call, and every expiry callback, is one step; the
 * timer wheel and the hash table are taken by their contracts. The cache is proved to behave as a
 * bounded list of records ordered by recency, and every counter and total is exact between calls.
 */
module Cache {
  import opened Bytes
  import opened Sets
  import opened NameDecode
  import opened CacheSteps

  const GROUP_NAME_LEN: nat := 32
  const TTL_MIN: int := 1
  const HITNUM_STEP: int := 3
  const HITNUM_STEP_MAX: int := 6
  const MAX_HITNUM: int := 6000

  /** The eviction loop runs at most this often in one insert. */
  const MAX_EVICTIONS: nat := 33

  // ---- A bounded recency list ----

  /** safe_strncpy into a field of n bytes. */
  function Cut(t: Text, n: nat): Text
    requires n > 0
  {
    if |t| < n then t else t[..n - 1]
  }

  /** The key as an entry stores it, cut to the sizes of its fields. */
  function Stored(key: Key): Key {
    key.(domain := Cut(key.domain, MAX_CNAME_LEN), group := Cut(key.group, GROUP_NAME_LEN))
  }

  /** The position of the record with the key. */
  function IndexOf(r: seq<Record>, key: Key): (i: Option<nat>)
    ensures i.Some? ==> i.value < |r| && SameKey(key, r[i.value].key)
    ensures i.None? ==> forall j :: 0 <= j < |r| ==> !SameKey(key, r[j].key)
  {
    if r == [] then None
    else if SameKey(key, r[0].key) then Some(0)
    else
      match IndexOf(r[1..], key)
      case None =>
        assert forall j :: 0 < j < |r| ==> r[j] == r[1..][j - 1];
        None
      case Some(i) => Some(i + 1)
  }

  function RemoveAt(r: seq<Record>, i: nat): seq<Record>
    requires i < |r|
  {
    r[..i] + r[i + 1..]
  }

  function Without(r: seq<Record>, key: Key): seq<Record> {
    match IndexOf(r, key)
    case None => r
    case Some(i) => RemoveAt(r, i)
  }

  function AtLeast(ttl: int): int {
    if ttl < TTL_MIN then TTL_MIN else ttl
  }

  // ---- Frames ----

  ghost predicate Live(entries: map<EntryId, Entry>) {
    forall e :: e in entries ==> entries[e].ref > 0
  }

  ghost predicate Fresh(entries: set<EntryId>, data: set<DataId>, nextEntry: nat, nextData: nat) {
    (forall e :: e in entries ==> e < nextEntry) && (forall d :: d in data ==> d < nextData)
  }

  ghost predicate Within(lost: multiset<EntryId>, handles: multiset<EntryId>) {
    forall e :: lost[e] <= handles[e]
  }

  /** s' is s after one handle on e was given up: e is gone exactly when it was the last reference. */
  ghost predicate Released(s: State, s': State, e: EntryId) {
    && s'.list == s.list && s'.handles == s.handles - multiset{e} && s'.dataHandles == s.dataHandles
    && s'.uncharged == s.uncharged && s'.unit == s.unit && e in s.entries && s'.data.Keys <= s.data.Keys
    && s'.entries.Keys == (if s.entries[e].ref == 1 then s.entries.Keys - {e} else s.entries.Keys)
    && (e in s'.entries ==> s'.entries[e] == s.entries[e].(ref := s.entries[e].ref - 1))
    && (forall x :: x in s.entries && x != e ==> x in s'.entries && s'.entries[x] == s.entries[x])
  }

  lemma ReleasedAlive(s: State, e: EntryId)
    requires Counted(s) && e in s.handles && e in s.entries && s.entries[e].ref > 1
    ensures Released(s, PutEntry(s, e), e) && (Live(s.entries) ==> Live(PutEntry(s, e).entries))
  {
    hide Counted;
  }

  lemma ReleasedDead(s: State, s': State, e: EntryId)
    requires e in s.entries && s.entries[e].ref == 1 && s'.entries == PutEntry(s, e).entries - {e}
    requires s'.list == s.list && s'.handles == s.handles - multiset{e} && s'.dataHandles == s.dataHandles
    requires s'.uncharged == s.uncharged && s'.unit == s.unit && s'.data.Keys <= s.data.Keys
    ensures Released(s, s', e) && (Live(s.entries) ==> Live(s'.entries))
  {
    assert s'.entries.Keys == s.entries.Keys - {e};
  }

  /** s' is s after the entry at position i was unlinked, its timer stopped and both references released. */
  ghost predicate Unlinked(s: State, s': State, i: nat) {
    && i < |s.list| && s'.list == s.list[..i] + s.list[i + 1..] && s'.handles == s.handles && s'.dataHandles == s.dataHandles
    && s'.uncharged == s.uncharged && s'.unit == s.unit && s'.data.Keys <= s.data.Keys && OthersKept(s.entries, s'.entries, s.list[i])
  }

  /** Every entry but e is as before, and none is new. */
  ghost predicate OthersKept(entries: map<EntryId, Entry>, entries': map<EntryId, Entry>, e: EntryId) {
    && entries'.Keys <= entries.Keys
    && forall x :: x in entries && x != e ==> x in entries' && entries'[x] == entries[x]
  }

  lemma OthersTrans(a: map<EntryId, Entry>, b: map<EntryId, Entry>, c: map<EntryId, Entry>, e: EntryId)
    requires OthersKept(a, b, e) && OthersKept(b, c, e)
    ensures OthersKept(a, c, e)
  {
  }

  lemma OthersSet(entries: map<EntryId, Entry>, e: EntryId, x: Entry)
    requires e in entries
    ensures OthersKept(entries, entries[e := x], e)
  {
  }

  // ---- Eviction ----

  /** The new entry does not fit: too many entries, or too much memory. */
  predicate Over(s: State, size: int, maxMem: int) {
    (maxMem > 0 && s.mem > maxMem) || s.num > size
  }

  /**
   * The states an eviction goes through, r being the records at its start: in each state but the last
   * the new entry does not fit, and the step from it removes the least recent entry.
   */
  ghost predicate Evicting(trail: seq<State>, r: seq<Record>, size: int, maxMem: int) {
    && 1 <= |trail| <= MAX_EVICTIONS + 1 && |trail| - 1 <= |r|
    && (forall j :: 0 <= j < |trail| ==> Counted(trail[j]) && Shown(trail[j]) == r[j..])
    && (forall j :: 0 <= j < |trail| - 1 ==> Over(trail[j], size, maxMem) && Unlinked(trail[j], trail[j + 1], 0))
  }

  lemma EvictingNone(s: State, r: seq<Record>, size: int, maxMem: int)
    requires Counted(s) && Shown(s) == r
    ensures Evicting([s], r, size, maxMem)
  {
    hide Counted, Shown, Unlinked;
    assert r[0..] == r;
  }

  lemma EvictingEnd(trail: seq<State>, r: seq<Record>, size: int, maxMem: int)
    requires Evicting(trail, r, size, maxMem)
    ensures 1 <= |trail| && |trail| - 1 <= |r| && Shown(trail[|trail| - 1]) == r[|trail| - 1..]
    ensures !Over(trail[0], size, maxMem) ==> |trail| == 1
  {
    hide Counted, Shown, Unlinked, Over;
  }

  lemma EvictingNext(trail: seq<State>, r: seq<Record>, size: int, maxMem: int, s: State)
    requires Evicting(trail, r, size, maxMem) && |trail| <= MAX_EVICTIONS && |trail| <= |r| && Counted(s) && Shown(s) == r[|trail|..]
    requires Over(trail[|trail| - 1], size, maxMem) && Unlinked(trail[|trail| - 1], s, 0)
    ensures Evicting(trail + [s], r, size, maxMem)
  {
    hide Counted, Shown, Unlinked, Over;
    var all := trail + [s];
    forall j | 0 <= j < |all| - 1 ensures Over(all[j], size, maxMem) && Unlinked(all[j], all[j + 1], 0) {
      if j < |trail| - 1 {
        assert all[j] == trail[j] && all[j + 1] == trail[j + 1];
      }
    }
  }

  class Store {
    var entries: map<EntryId, Entry>
    var list: seq<EntryId>
    var data: map<DataId, Data>
    var num: int
    var mem: int
    const size: int
    const maxMem: int
    const unit: nat
    var nextEntry: nat
    var nextData: nat
    ghost var handles: multiset<EntryId>
    ghost var dataHandles: multiset<DataId>
    ghost var uncharged: nat
    /** The references among handles that nobody will give back. */
    ghost var lost: multiset<EntryId>

    ghost function S(): State
      reads this
    {
      State(entries, list, data, num, mem, handles, dataHandles, uncharged, unit)
    }

    ghost predicate Ok()
      reads this
    {
      Counted(S()) && Fresh(entries.Keys, data.Keys, nextEntry, nextData)
    }

    ghost predicate Valid()
      reads this
    {
      Ok() && Live(entries) && uncharged == 0 && |list| <= (if size <= 0 then 0 else size) && Within(lost, handles)
    }

    /** A caller holds a reference to e. */
    ghost predicate Held(e: EntryId)
      reads this
    {
      lost[e] < handles[e]
    }

    /** dns_cache_init; unit is sizeof(struct dns_cache). */
    constructor (size: int, memSize: int, unit: nat)
      ensures Valid() && list == [] && num == 0 && mem == 0 && lost == multiset{}
      ensures this.size == (if memSize > 0 then 0x7fff_ffff else size) && maxMem == memSize && this.unit == unit
    {
      entries, list, data, num, mem := map[], [], map[], 0, 0;
      this.size, maxMem, this.unit := if memSize > 0 then 0x7fff_ffff else size, memSize, unit;
      nextEntry, nextData := 0, 0;
      handles, dataHandles, uncharged, lost := multiset{}, multiset{}, 0, multiset{};
    }

    // ---- References ----

    /** dns_cache_data_put on a reference the caller holds. */
    method DataPut(d: DataId)
      requires Ok() && d in dataHandles
      modifies `data, `mem, `dataHandles
      ensures Ok() && d in old(data) && S() == PutData(old(S()), d) && Shown(S()) == old(Shown(S())) && mem <= old(mem)
    {
      hide Counted, Shown;
      PutDataKeeps(S(), d);
      if data[d].ref == 1 {
        mem := mem - (data[d].size + DATA_HEAD);
        data := data - {d};
      } else {
        data := data[d := data[d].(ref := data[d].ref - 1)];
      }
      dataHandles := dataHandles - multiset{d};
    }

    /** dns_cache_data_get. */
    method DataGet(d: DataId)
      requires Ok() && d in data
      modifies `data, `dataHandles
      ensures Ok() && S() == GetData(old(S()), d) && Shown(S()) == old(Shown(S()))
    {
      hide Counted, Shown;
      GetDataKeeps(S(), d);
      data, dataHandles := data[d := data[d].(ref := data[d].ref + 1)], dataHandles + multiset{d};
    }

    /** dns_cache_get. */
    method Get(e: EntryId)
      requires Ok() && e in entries
      modifies `entries, `handles
      ensures Ok() && S() == GetEntry(old(S()), e) && Shown(S()) == old(Shown(S()))
    {
      hide Counted, Shown;
      GetEntryKeeps(S(), e);
      entries, handles := entries[e := entries[e].(ref := entries[e].ref + 1)], handles + multiset{e};
    }

    /** _dns_cache_delete: the entry is dead, so off the list and without a pending timer. */
    method Free(e: EntryId)
      requires Ok() && e in entries && entries[e].ref == 0 && uncharged < |entries|
      modifies `entries, `num, `mem, `data, `dataHandles
      ensures Ok() && e !in list && !old(entries)[e].timer && entries == old(entries) - {e} && dataHandles == old(dataHandles)
      ensures data.Keys <= old(data).Keys && Shown(S()) == old(Shown(S())) && num <= old(num) && mem <= old(mem)
    {
      hide Counted, Shown;
      DropEntryKeeps(S(), e);
      var d := entries[e].data;
      ghost var s := S();
      dataHandles := DropEntry(s, e).dataHandles;
      entries, num, mem := entries - {e}, num - 1, mem - unit;
      if d.Some? {
        DataPut(d.value);
        assert dataHandles == s.dataHandles;
      }
    }

    /** dns_cache_release. */
    method Release(e: EntryId)
      requires Ok() && Live(entries) && e in handles && uncharged < |entries|
      modifies `entries, `num, `mem, `data, `handles, `dataHandles
      ensures Ok() && Live(entries) && Released(old(S()), S(), e) && Shown(S()) == old(Shown(S()))
      ensures num <= old(num) && mem <= old(mem)
    {
      hide Counted, Shown, Live, Released, Fresh;
      PutEntryKeeps(S(), e);
      ghost var s := S();
      entries, handles := entries[e := entries[e].(ref := entries[e].ref - 1)], handles - multiset{e};
      assert entries.Keys == s.entries.Keys;
      if entries[e].ref > 0 {
        ReleasedAlive(s, e);
        return;
      }
      KeysSize(s.entries, entries);
      Free(e);
      ReleasedDead(s, S(), e);
    }

    /** The entry at position i leaves the list and its timer stops. */
    method Detach(e: EntryId, i: nat) returns (pending: bool)
      requires Ok() && i < |list| && list[i] == e && e in entries
      modifies `entries, `list, `handles
      ensures Ok() && Detached(old(S()), S(), i, pending) && Shown(S()) == RemoveAt(old(Shown(S())), i)
    {
      hide Counted, Records, Fresh;
      pending := entries[e].timer;
      ghost var s := S();
      if pending {
        DisarmKeeps(s, e);
        entries, handles := entries[e := entries[e].(timer := false)], handles + multiset{e};
        assert entries.Keys == s.entries.Keys;
      }
      UnlinkAtKeeps(S(), i);
      list, handles := list[..i] + list[i + 1..], handles + multiset{e};
    }

    /** _dns_cache_remove on an entry of the list. */
    method Remove(e: EntryId, i: nat)
      requires Ok() && Live(entries) && i < |list| && list[i] == e && e in entries && uncharged < |entries|
      modifies `entries, `list, `num, `mem, `data, `handles, `dataHandles
      ensures Ok() && Live(entries) && Unlinked(old(S()), S(), i) && Shown(S()) == RemoveAt(old(Shown(S())), i)
      ensures num <= old(num) && mem <= old(mem)
    {
      hide Counted, Shown, Live, Released, Fresh, Detached, Unlinked, Records;
      ghost var s0 := S();
      var pending := Detach(e, i);
      ghost var s1 := S();
      DetachedLive(s0, s1, i, pending);
      if pending {
        Release(e);
        SecondRelease(s0, s1, S(), i);
      }
      ghost var s2 := S();
      Release(e);
      UnlinkedDone(s0, s1, s2, S(), i, pending);
    }

    // ---- Lookups ----

    /** The search of _dns_cache_lookup: at most one linked entry can match, so the order is no matter. */
    method Find(key: Key) returns (i: Option<nat>)
      requires Ok()
      ensures i == IndexOf(Shown(S()), key)
      ensures i.Some? ==> i.value < |list| && list[i.value] in entries && list[i.value] in list
    {
      hide EntriesCounted, DataCounted, HandlesOk, DataOk, Accounts, Unique, SameKey, Fresh, IndexOf;
      ghost var r := Shown(S());
      var n := 0;
      while n < |list|
        invariant 0 <= n <= |list| && forall j :: 0 <= j < n ==> !SameKey(key, r[j].key)
      {
        if SameKey(key, entries[list[n]].key) {
          IndexIs(r, key, n);
          return Some(n);
        }
        n := n + 1;
      }
      i := None;
    }

    /** dns_cache_lookup; the caller gets a reference. */
    method Lookup(key: Key) returns (e: Option<EntryId>)
      requires Valid()
      modifies `entries, `handles
      ensures Valid() && Shown(S()) == old(Shown(S())) && dataHandles == old(dataHandles) && list == old(list)
      ensures e.None? <==> IndexOf(Shown(S()), key).None?
      ensures e.None? ==> S() == old(S())
      ensures e.Some? ==> e.value in entries && e.value in list && handles == old(handles) + multiset{e.value}
      ensures e.Some? ==> RecordOf(entries[e.value]) == Shown(S())[IndexOf(Shown(S()), key).value]
    {
      hide Counted, Records, Fresh, IndexOf, Live;
      e := None;
      if size <= 0 {
        assert Shown(S()) == [];
        NoRecords(key);
        return;
      }
      var i := Find(key);
      if i.Some? {
        ShownAt(S(), i.value);
        e := Some(list[i.value]);
        GotLive(S(), e.value);
        Get(e.value);
        assert entries.Keys == old(entries).Keys;
        ShownAt(S(), i.value);
      }
    }

    // ---- Insert ----

    /** _dns_cache_remove_by_domain. */
    method RemoveByKey(key: Key)
      requires Ok() && Live(entries) && uncharged == 0
      modifies `entries, `list, `num, `mem, `data, `handles, `dataHandles
      ensures Ok() && Live(entries) && uncharged == 0 && Shown(S()) == Without(old(Shown(S())), key)
      ensures handles == old(handles) && dataHandles == old(dataHandles) && num <= old(num) && mem <= old(mem) && |list| <= |old(list)|
      ensures NoKey(Shown(S()), key)
    {
      hide Counted, Records, Fresh, Live, Unlinked, SameKey, IndexOf;
      ghost var s := S();
      var i := Find(key);
      OnlyOne(s, key);
      if i.Some? {
        OneEntry(s, i.value);
        Remove(list[i.value], i.value);
        UnlinkedFrame(s, S(), i.value);
      }
      ShownLength(s);
      ShownLength(S());
    }

    /** The oldest entry goes; e, which is not linked, stays. */
    method EvictFirst(ghost e: EntryId)
      requires Ok() && Live(entries) && uncharged == 1 && list != [] && e in entries && e !in list
      modifies `entries, `list, `num, `mem, `data, `handles, `dataHandles
      ensures Ok() && Live(entries) && handles == old(handles) && dataHandles == old(dataHandles) && num <= old(num) && mem <= old(mem)
      ensures Shown(S()) == old(Shown(S()))[1..] && |list| == |old(list)| - 1 && |old(Shown(S()))| == |old(list)|
      ensures Unlinked(old(S()), S(), 0) && uncharged == 1
      ensures e in entries && entries[e] == old(entries)[e] && e !in list
    {
      hide Counted, Shown, Fresh, Live, Unlinked;
      ghost var s := S();
      TwoEntries(s, e);
      ShownLength(s);
      Remove(list[0], 0);
      UnlinkedFrame(s, S(), 0);
      UnlinkedOther(s, S(), 0, e);
      assert RemoveAt(Shown(s), 0) == Shown(s)[1..];
    }

    /** The loop of _dns_cache_insert: the oldest entries go until the new one fits, at most 33 of them. */
    method Evict(ghost e: EntryId) returns (ghost trail: seq<State>)
      requires Ok() && Live(entries) && uncharged == 1 && size > 0 && |list| <= size && e in entries && e !in list
      modifies `entries, `list, `num, `mem, `data, `handles, `dataHandles
      ensures Ok() && Live(entries) && handles == old(handles) && dataHandles == old(dataHandles) && |list| < size
      ensures Evicting(trail, old(Shown(S())), size, maxMem) && trail[0] == old(S()) && trail[|trail| - 1] == S()
      ensures Over(S(), size, maxMem) ==> |trail| - 1 == MAX_EVICTIONS || list == []
      ensures e in entries && entries[e] == old(entries)[e] && e !in list
    {
      hide Counted, Shown, Fresh, Live, Unlinked, Evicting;
      trail := [S()];
      ghost var r := Shown(S());
      ShownLength(S());
      EvictingNone(S(), r, size, maxMem);
      var count: nat := 0;
      while true
        invariant Ok() && Live(entries) && handles == old(handles) && dataHandles == old(dataHandles) && uncharged == 1
        invariant count < MAX_EVICTIONS && |trail| == count + 1 && trail[0] == old(S()) && trail[count] == S()
        invariant Evicting(trail, r, size, maxMem) && count <= |r| && Shown(S()) == r[count..] && |list| == |r| - count
        invariant e in entries && entries[e] == old(entries)[e] && e !in list
        decreases MAX_EVICTIONS - count
      {
        var need := (maxMem > 0 && mem > maxMem) || num > size;
        if !need || list == [] {
          break;
        }
        ghost var s := S();
        EvictFirst(e);
        assert r[count..][1..] == r[count + 1..];
        EvictingNext(trail, r, size, maxMem, S());
        trail, count := trail + [S()], count + 1;
        if count == MAX_EVICTIONS {
          break;
        }
      }
      Crowd(S(), e);
    }

    /** The new entry joins the list, is charged, and its timer starts. */
    method Admit(e: EntryId)
      requires Ok() && Live(entries) && uncharged == 1 && e in handles && e in entries && e !in list && !entries[e].timer
      requires NoKey(Shown(S()), entries[e].key)
      modifies `entries, `list, `mem, `handles, `uncharged
      ensures Ok() && Live(entries) && uncharged == 0 && handles == old(handles) - multiset{e} && dataHandles == old(dataHandles)
      ensures list == old(list) + [e] && Shown(S()) == old(Shown(S())) + [RecordOf(old(entries)[e])] && mem == old(mem) + unit
    {
      hide Counted, Shown, Fresh, Live, SameKey;
      ghost var s := S();
      NoKeyInList(s, e);
      LinkKeeps(s, e);
      list, handles := list + [e], handles - multiset{e};
      ChargeKeeps(S());
      mem, uncharged := mem + unit, uncharged - 1;
      StartTimer(e);
    }

    /** A timer that is not pending is started, with a reference of its own. */
    method StartTimer(e: EntryId)
      requires Ok() && Live(entries) && e in entries && e in list && !entries[e].timer
      modifies `entries, `handles
      ensures Ok() && Live(entries) && handles == old(handles) && Shown(S()) == old(Shown(S()))
      ensures entries == old(entries)[e := old(entries)[e].(ref := old(entries)[e].ref + 1, timer := true)]
    {
      hide Counted, Shown, Fresh, Live;
      ghost var s := S();
      GotLive(s, e);
      Get(e);
      ArmKeeps(S(), e);
      ArmedLive(S(), e);
      entries, handles := entries[e := entries[e].(timer := true)], handles - multiset{e};
      assert entries.Keys == s.entries.Keys;
      assert handles == s.handles;
    }

    /** A fresh entry with the caller's data, counted and not yet linked. */
    method NewEntry(key: Key, info: Info, d: DataId) returns (e: EntryId)
      requires Ok() && Live(entries) && d in dataHandles
      modifies `entries, `num, `handles, `dataHandles, `uncharged, `nextEntry
      ensures Ok() && Live(entries) && e !in old(entries) && S() == AddEntry(old(S()), e, key, info, d) && Shown(S()) == old(Shown(S()))
    {
      hide Counted, Shown, Live, Fresh;
      e := nextEntry;
      FreshNext(entries.Keys, data.Keys, nextEntry, nextData);
      AddEntryKeeps(S(), e, key, info, d);
      AddedLive(S(), e, key, info, d);
      ghost var s := AddEntry(S(), e, key, info, d);
      entries, num, nextEntry := entries[e := Entry(1, key, info, Some(d), false)], num + 1, nextEntry + 1;
      handles, dataHandles, uncharged := s.handles, s.dataHandles, s.uncharged;
      assert S() == s;
      assert entries.Keys == old(entries).Keys + {e};
    }

    /**
     * dns_cache_insert. The record of the key is replaced; the oldest records go as far as needed;
     * the new one is the most recent. The caller's data reference is consumed exactly on success.
     */
    method Insert(key: Key, rcode: int, ttl: int, speed: int, timeout: int, d: Option<DataId>) returns (ret: int, ghost trail: seq<State>)
      requires Valid() && (d.Some? ==> d.value in dataHandles)
      modifies `entries, `list, `num, `mem, `data, `handles, `dataHandles, `uncharged, `nextEntry
      ensures Valid() && handles == old(handles) && ret == (if d.Some? then 0 else -1)
      ensures dataHandles == if ret == 0 then old(dataHandles) - multiset{d.value} else old(dataHandles)
      ensures d.None? || size <= 0 ==> Shown(S()) == old(Shown(S()))
      ensures d.Some? && size > 0 ==>
                var base := Without(old(Shown(S())), Stored(key));
                && Evicting(trail, base, size, maxMem)
                && var k := |trail| - 1;
                   && Shown(S()) == base[k..] + [Record(Stored(key), Info(rcode, AtLeast(ttl), speed, timeout, 3, HITNUM_STEP), d)]
                   && (num > size || (maxMem > 0 && mem - unit > maxMem) ==> k == MAX_EVICTIONS || k == |base|)
                   && (old(num) + 1 <= size && (maxMem <= 0 || old(mem) <= maxMem) ==> k == 0)
    {
      hide Counted, Shown, Fresh, Live, Without, Stored, Evicting, Within;
      trail := [];
      if d.None? {
        return -1, [];
      }
      ret := 0;
      if size <= 0 {
        DataPut(d.value);
        return;
      }
      var info := Info(rcode, AtLeast(ttl), speed, timeout, 3, HITNUM_STEP);
      trail := InsertNew(Stored(key), info, d.value);
    }

    /** _dns_cache_insert, for a key that fits its fields. */
    method InsertNew(own: Key, info: Info, d: DataId) returns (ghost trail: seq<State>)
      requires Ok() && Live(entries) && uncharged == 0 && 0 < size && |list| <= size && d in dataHandles
      modifies `entries, `list, `num, `mem, `data, `handles, `dataHandles, `uncharged, `nextEntry
      ensures Ok() && Live(entries) && uncharged == 0 && |list| <= size
      ensures handles == old(handles) && dataHandles == old(dataHandles) - multiset{d}
      ensures var base := Without(old(Shown(S())), own);
              && Evicting(trail, base, size, maxMem)
              && var k := |trail| - 1;
                 && Shown(S()) == base[k..] + [Record(own, info, Some(d))]
                 && (num > size || (maxMem > 0 && mem - unit > maxMem) ==> k == MAX_EVICTIONS || k == |base|)
                 && (old(num) + 1 <= size && (maxMem <= 0 || old(mem) <= maxMem) ==> k == 0)
    {
      hide Counted, Shown, Fresh, Live, Without, NoKey, Evicting;
      var e := Prepare(own, info, d);
      ghost var base := Shown(S());
      trail := Evict(e);
      EvictingEnd(trail, base, size, maxMem);
      ShownLength(S());
      NoKeySuffix(base, own, |trail| - 1);
      Admit(e);
      assert old(handles) + multiset{e} - multiset{e} == old(handles);
    }

    /** The record of the key goes, and the new entry is made. */
    method Prepare(own: Key, info: Info, d: DataId) returns (e: EntryId)
      requires Ok() && Live(entries) && uncharged == 0 && d in dataHandles
      modifies `entries, `list, `num, `mem, `data, `handles, `dataHandles, `uncharged, `nextEntry
      ensures Ok() && Live(entries) && uncharged == 1 && |list| <= |old(list)| && num <= old(num) + 1 && mem <= old(mem)
      ensures handles == old(handles) + multiset{e} && dataHandles == old(dataHandles) - multiset{d}
      ensures e in entries && e !in list && entries[e] == Entry(1, own, info, Some(d), false)
      ensures Shown(S()) == Without(old(Shown(S())), own) && NoKey(Shown(S()), own)
    {
      hide Counted, Shown, Fresh, Live, Without, NoKey;
      RemoveByKey(own);
      ghost var s := S();
      e := NewEntry(own, info, d);
      NotListed(s, e);
    }

    // ---- Changing an entry in place ----

    /** The entry at position i gets new information and becomes the most recent. */
    method Touch(i: nat, info: Info)
      requires Ok() && Live(entries) && i < |list| && list[i] in entries
      modifies `entries, `list
      ensures Ok() && Live(entries) && list == old(list)[..i] + old(list)[i + 1..] + [old(list)[i]]
      ensures var r := old(Shown(S())); i < |r| && Shown(S()) == RemoveAt(r, i) + [r[i].(info := info)]
      ensures entries == old(entries)[old(list)[i] := old(entries)[old(list)[i]].(info := info)]
    {
      hide Counted, Shown, Fresh, Live;
      ghost var s := S();
      ShownLength(s);
      SetInfoKeeps(s, i, info);
      InfoLive(s, list[i], info);
      entries := entries[list[i] := entries[list[i]].(info := info)];
      assert entries.Keys == s.entries.Keys;
      MoveToTailKeeps(S(), i);
      list := list[..i] + list[i + 1..] + [list[i]];
      Moved(Shown(s), i, info);
    }

    /** The entry at the tail takes over the caller's data; its old data is in flight. */
    method SwapIn(d: DataId) returns (was: Option<DataId>)
      requires Ok() && Live(entries) && list != [] && list[|list| - 1] in entries && d in dataHandles
      modifies `entries, `dataHandles
      ensures Ok() && Live(entries) && S() == SetData(old(S()), list[|list| - 1], d) && was == old(entries)[list[|list| - 1]].data
      ensures var r := old(Shown(S())); |r| == |list| && Shown(S()) == r[|r| - 1 := r[|r| - 1].(data := Some(d))]
    {
      hide Counted, Shown, Fresh, Live;
      ghost var s := S();
      ShownLength(s);
      var e := list[|list| - 1];
      SetDataKeeps(s, |list| - 1, d);
      RefillLive(s, e, d);
      was := entries[e].data;
      ghost var t := SetData(s, e, d);
      dataHandles := t.dataHandles;
      entries := entries[e := entries[e].(data := Some(d))];
      assert S() == t;
      assert entries.Keys == s.entries.Keys;
    }

    /** The entry at the tail takes over the caller's data, and its old data is released. */
    method Refill(d: DataId)
      requires Ok() && Live(entries) && list != [] && list[|list| - 1] in entries && d in dataHandles
      modifies `entries, `data, `mem, `dataHandles
      ensures Ok() && Live(entries) && dataHandles == old(dataHandles) - multiset{d}
      ensures var r := old(Shown(S())); |r| == |list| && Shown(S()) == r[|r| - 1 := r[|r| - 1].(data := Some(d))]
      ensures entries == old(entries)[list[|list| - 1] := old(entries)[list[|list| - 1]].(data := Some(d))]
    {
      hide Counted, Shown, Fresh, Live;
      ghost var h := dataHandles;
      var was := SwapIn(d);
      if was.Some? {
        DataPut(was.value);
        DataBack(h, d, was.value);
      } else {
        assert dataHandles == h - multiset{d};
      }
    }

    /** dns_timer_mod leaves a pending timer pending; otherwise the timer is started. */
    method Arrange(e: EntryId)
      requires Ok() && Live(entries) && e in entries && e in list
      modifies `entries, `handles
      ensures Ok() && Live(entries) && handles == old(handles) && Shown(S()) == old(Shown(S()))
      ensures entries.Keys == old(entries).Keys && entries[e].timer && RecordOf(entries[e]) == RecordOf(old(entries)[e])
    {
      if !entries[e].timer {
        StartTimer(e);
      }
    }

    /** dns_cache_replace: the record keeps its key and hit count and becomes the most recent. */
    method Replace(key: Key, rcode: int, ttl: int, speed: int, timeout: int, d: Option<DataId>) returns (ret: int)
      requires Valid() && (d.Some? ==> d.value in dataHandles)
      modifies `entries, `list, `data, `mem, `num, `handles, `dataHandles
      ensures Valid() && handles == old(handles)
      ensures ret == (if size <= 0 || IndexOf(old(Shown(S())), key).Some? then 0 else -1)
      ensures dataHandles == if ret == 0 && d.Some? then old(dataHandles) - multiset{d.value} else old(dataHandles)
      ensures IndexOf(old(Shown(S())), key).None? ==> Shown(S()) == old(Shown(S()))
      ensures IndexOf(old(Shown(S())), key).Some? ==>
                var r := old(Shown(S()));
                var i := IndexOf(r, key).value;
                Shown(S()) == RemoveAt(r, i) + [Refreshed(r[i], rcode, AtLeast(ttl), speed, timeout, d)]
    {
      hide Counted, Shown, Fresh, Live, IndexOf, Within;
      ghost var r := Shown(S());
      ShownLength(S());
      if size <= 0 {
        assert r == [];
        NoRecords(key);
        if d.Some? {
          DataPut(d.value);
        }
        return 0;
      }
      var i := Find(key);
      if i.None? {
        return -1;
      }
      Refresh(i.value, rcode, AtLeast(ttl), speed, timeout, d);
      return 0;
    }

    /** The entry at position i gets new contents, becomes the most recent, and its timer is pending. */
    method Refresh(i: nat, rcode: int, ttl: int, speed: int, timeout: int, d: Option<DataId>)
      requires Ok() && Live(entries) && i < |list| && list[i] in entries && (d.Some? ==> d.value in dataHandles)
      modifies `entries, `list, `data, `mem, `handles, `dataHandles
      ensures Ok() && Live(entries) && handles == old(handles) && |list| == |old(list)|
      ensures dataHandles == if d.Some? then old(dataHandles) - multiset{d.value} else old(dataHandles)
      ensures var r := old(Shown(S())); i < |r| && Shown(S()) == RemoveAt(r, i) + [Refreshed(r[i], rcode, ttl, speed, timeout, d)]
    {
      hide Counted, Shown, Fresh, Live;
      var e := list[i];
      ShownAt(S(), i);
      Touch(i, entries[e].info.(rcode := rcode, ttl := ttl, speed := speed, timeout := timeout));
      if d.Some? {
        Refill(d.value);
      }
      Arrange(e);
    }

    /** dns_cache_update_timer: the entry's timer is pending afterwards. */
    method UpdateTimer(key: Key) returns (ret: int)
      requires Valid()
      modifies `entries, `handles
      ensures Valid() && handles == old(handles) && Shown(S()) == old(Shown(S())) && list == old(list)
      ensures ret == if IndexOf(Shown(S()), key).Some? then 0 else -1
      ensures ret == 0 ==> var i := IndexOf(Shown(S()), key).value; i < |list| && list[i] in entries && entries[list[i]].timer
    {
      hide Counted, Shown, Fresh, Live, IndexOf, Within;
      var i := Find(key);
      if i.None? {
        return -1;
      }
      Arrange(list[i.value]);
      ret := 0;
    }

    /** dns_cache_update on an entry the caller holds: used again, so most recent, unless it was removed. */
    method Update(e: EntryId)
      requires Valid() && Held(e) && e in entries
      modifies `entries, `list
      ensures Valid()
      ensures e !in list ==> Shown(S()) == old(Shown(S()))
      ensures e in old(list) ==>
                exists i :: 0 <= i < |old(list)| && old(list)[i] == e && |old(Shown(S()))| == |old(list)|
                  && Shown(S()) == RemoveAt(old(Shown(S())), i) + [Used(old(Shown(S()))[i])]
    {
      hide Counted, Shown, Fresh, Live;
      if e in list {
        var i :| 0 <= i < |list| && list[i] == e;
        ShownAt(S(), i);
        Touch(i, Used(RecordOf(entries[e])).info);
      }
    }

    // ---- Removing ----

    /** dns_cache_delete on an entry the caller holds. */
    method Delete(e: EntryId)
      requires Valid() && Held(e) && e in entries
      modifies `entries, `list, `num, `mem, `data, `handles, `dataHandles
      ensures Valid() && handles == old(handles) && dataHandles == old(dataHandles) && e !in list && e in entries
      ensures e !in old(list) ==> Shown(S()) == old(Shown(S()))
      ensures e in old(list) ==>
                exists i :: 0 <= i < |old(list)| && old(list)[i] == e && |old(Shown(S()))| == |old(list)| && Shown(S()) == RemoveAt(old(Shown(S())), i)
    {
      hide Counted, Shown, Fresh, Live, Unlinked;
      if e in list {
        var i :| 0 <= i < |list| && list[i] == e;
        ghost var s := S();
        ShownLength(s);
        OneEntry(s, i);
        Remove(e, i);
        UnlinkedFrame(s, S(), i);
        Gone(s, S(), i);
        HandleExists(S(), e);
      }
    }

    /** dns_cache_flush. */
    method Flush()
      requires Valid()
      modifies `entries, `list, `num, `mem, `data, `handles, `dataHandles
      ensures Valid() && list == [] && Shown(S()) == [] && handles == old(handles) && dataHandles == old(dataHandles)
    {
      hide Counted, Shown, Fresh, Live, Unlinked;
      while list != []
        invariant Valid() && handles == old(handles) && dataHandles == old(dataHandles)
        decreases |list|
      {
        ghost var s := S();
        OneEntry(s, 0);
        Remove(list[0], 0);
        UnlinkedFrame(s, S(), 0);
      }
      ShownLength(S());
    }

    // ---- Expiry ----

    /**
     * dns_cache_expired: the timer of e has fired, and is not pending. rearmed says that the callback
     * started it again. The fired timer's reference is given back, except after UPDATE or RETRY on a
     * timer started again: then it is lost, and no caller can give it back.
     */
    method Expired(e: EntryId, act: Action, rearmed: bool)
      requires Valid() && e in entries && entries[e].timer && e in list
      modifies `entries, `list, `num, `mem, `data, `handles, `dataHandles, `lost
      ensures Valid() && dataHandles == old(dataHandles) && handles - lost == old(handles - lost)
      ensures lost == old(lost) + (if rearmed && (act.Update? || act.Retry?) then multiset{e} else multiset{})
      ensures !act.Del? ==> Shown(S()) == old(Shown(S())) && e in list && e in entries && entries[e].timer == rearmed
      ensures act.Del? ==> e !in list && Dropped(old(Shown(S())), Shown(S()))
    {
      hide Counted, Shown, Fresh, Live, Within;
      ghost var h := handles;
      FiredHeld(lost, h, e);
      LostStays(h, lost, e);
      Fire(e);
      if rearmed {
        StartTimer(e);
      }
      Settle(e, act, h);
    }

    /** What the callback asked for, and the reference of the fired timer. */
    method Settle(e: EntryId, act: Action, ghost h: multiset<EntryId>)
      requires Valid() && Held(e) && e in entries && e in list && handles == h + multiset{e} && Within(lost, h)
      modifies `entries, `list, `num, `mem, `data, `handles, `dataHandles, `lost
      ensures Valid() && dataHandles == old(dataHandles)
      ensures if old(entries)[e].timer && (act.Update? || act.Retry?) then handles == old(handles) && lost == old(lost) + multiset{e}
              else handles == h && lost == old(lost)
      ensures !act.Del? ==> Shown(S()) == old(Shown(S())) && e in list && e in entries && entries[e].timer == old(entries)[e].timer
      ensures act.Del? ==> e !in list && Dropped(old(Shown(S())), Shown(S()))
    {
      hide Counted, Shown, Fresh, Live, Within;
      assert h + multiset{e} - multiset{e} == h;
      if act.Del? {
        Delete(e);
        GiveBack(e);
      } else if (act.Update? || act.Retry?) && entries[e].timer {
        LostStays(h, lost, e);
        lost := lost + multiset{e};
      } else {
        GiveBack(e);
      }
    }

    /** The timer fires: its reference goes to the callback. */
    method Fire(e: EntryId)
      requires Valid() && e in entries && entries[e].timer && e in list
      modifies `entries, `handles
      ensures Valid() && handles == old(handles) + multiset{e} && Shown(S()) == old(Shown(S()))
      ensures entries == old(entries)[e := old(entries)[e].(timer := false)]
    {
      hide Counted, Shown, Fresh, Live;
      ghost var s := S();
      DisarmKeeps(s, e);
      FiredLive(s, e);
      entries, handles := entries[e := entries[e].(timer := false)], handles + multiset{e};
      assert entries.Keys == s.entries.Keys;
    }

    /** dns_cache_release, between calls. */
    method GiveBack(e: EntryId)
      requires Valid() && Held(e)
      modifies `entries, `num, `mem, `data, `handles, `dataHandles
      ensures Valid() && handles == old(handles) - multiset{e} && dataHandles == old(dataHandles) && Shown(S()) == old(Shown(S()))
      ensures e in list && e in old(entries) ==> e in entries && entries[e].timer == old(entries)[e].timer
    {
      hide Counted, Shown, Fresh, Live, Released;
      ghost var s := S();
      HandleExists(s, e);
      OneMore(s, e);
      Release(e);
      ReleasedFrame(s, S(), e);
      ReleasedLinked(s, S(), e);
    }

    /** dns_cache_new_data_packet. */
    method NewPacket(len: nat) returns (d: Option<DataId>)
      requires Valid()
      modifies `data, `mem, `dataHandles, `nextData
      ensures Valid() && Shown(S()) == old(Shown(S())) && (d.None? <==> len == 0)
      ensures d.None? ==> S() == old(S())
      ensures d.Some? ==> d.value !in old(data) && dataHandles == old(dataHandles) + multiset{d.value} && mem == old(mem) + DATA_HEAD + len
    {
      hide Counted, Shown, Fresh, Live;
      if len == 0 {
        return None;
      }
      FreshNext(entries.Keys, data.Keys, nextEntry, nextData);
      NewDataKeeps(S(), nextData, len);
      d := Some(nextData);
      data, mem, nextData := data[nextData := Data(1, len)], mem + DATA_HEAD + len, nextData + 1;
      dataHandles := dataHandles + multiset{d.value};
      assert data.Keys == old(data).Keys + {d.value};
    }

    /** dns_cache_get_data: the caller gets a reference to the data of an entry it holds. */
    method DataOf(e: EntryId) returns (d: Option<DataId>)
      requires Valid() && Held(e) && e in entries
      modifies `data, `dataHandles
      ensures Valid() && Shown(S()) == old(Shown(S())) && d == entries[e].data
      ensures dataHandles == old(dataHandles) + (if d.Some? then multiset{d.value} else multiset{})
    {
      hide Counted, Shown, Fresh, Live;
      d := entries[e].data;
      if d.Some? {
        DataThere(S(), e);
        DataGet(d.value);
        assert data.Keys == old(data).Keys;
      }
    }
  }

  /** One record is gone. */
  ghost predicate Dropped(r: seq<Record>, r': seq<Record>) {
    exists i :: 0 <= i < |r| && r' == RemoveAt(r, i)
  }

  /** What the timeout callback asks for. */
  datatype Action = Nothing | Del | Retry | Update

  function Refreshed(r: Record, rcode: int, ttl: int, speed: int, timeout: int, d: Option<DataId>): Record {
    Record(r.key, r.info.(rcode := rcode, ttl := ttl, speed := speed, timeout := timeout), if d.Some? then d else r.data)
  }

  function Least(a: int, b: int): int {
    if a < b then a else b
  }

  function Used(r: Record): Record {
    r.(info := r.info.(hitnum := Least(r.info.hitnum + r.info.hitAdd, MAX_HITNUM),
                       hitAdd := if r.info.hitAdd < HITNUM_STEP_MAX then r.info.hitAdd + 1 else r.info.hitAdd))
  }

  /** Out of the list, timer stopped, one reference in flight for each. */
  ghost predicate Detached(s: State, s': State, i: nat, pending: bool) {
    && i < |s.list| && s.list[i] in s.entries && pending == s.entries[s.list[i]].timer
    && s'.list == s.list[..i] + s.list[i + 1..] && s'.dataHandles == s.dataHandles && s'.data == s.data
    && s'.uncharged == s.uncharged && s'.unit == s.unit
    && s'.entries == s.entries[s.list[i] := s.entries[s.list[i]].(timer := false)]
    && s'.handles == s.handles + multiset{s.list[i]} + (if pending then multiset{s.list[i]} else multiset{})
  }

  lemma DetachedLive(s: State, s': State, i: nat, pending: bool)
    requires Counted(s) && Detached(s, s', i, pending) && Live(s.entries)
    ensures Live(s'.entries) && s.list[i] in s'.handles && s.list[i] in s'.entries && |s'.entries| == |s.entries|
    ensures s'.uncharged == s.uncharged && (pending ==> s'.entries[s.list[i]].ref >= 2)
  {
    hide Counted;
    EntryRef(s, s.list[i]);
    KeysSize(s.entries, s'.entries);
  }

  lemma SecondRelease(s: State, s1: State, s2: State, i: nat)
    requires Counted(s) && Detached(s, s1, i, true) && Released(s1, s2, s.list[i]) && s1.entries[s.list[i]].ref >= 2
    ensures s.list[i] in s2.handles && |s2.entries| == |s.entries| && s2.uncharged == s.uncharged
  {
    hide Counted;
    KeysSize(s.entries, s2.entries);
  }

  lemma UnlinkedDone(s: State, s1: State, s2: State, s3: State, i: nat, pending: bool)
    requires Detached(s, s1, i, pending) && (if pending then Released(s1, s2, s.list[i]) else s2 == s1) && Released(s2, s3, s.list[i])
    ensures Unlinked(s, s3, i)
  {
    hide Released, OthersKept;
    var e := s.list[i];
    OthersSet(s.entries, e, s.entries[e].(timer := false));
    if pending {
      HandlesBack2(s.handles, e);
      ReleasedFrame(s1, s2, e);
      OthersTrans(s.entries, s1.entries, s2.entries, e);
    } else {
      HandlesBack1(s.handles, e);
    }
    ReleasedFrame(s2, s3, e);
    OthersTrans(s.entries, s2.entries, s3.entries, e);
  }

  lemma ReleasedFrame(s: State, s': State, e: EntryId)
    requires Released(s, s', e)
    ensures s'.list == s.list && s'.handles == s.handles - multiset{e} && s'.dataHandles == s.dataHandles
    ensures s'.uncharged == s.uncharged && s'.unit == s.unit && s'.data.Keys <= s.data.Keys && OthersKept(s.entries, s'.entries, e)
  {
  }

  lemma HandlesBack1(h: multiset<EntryId>, e: EntryId)
    ensures h + multiset{e} + multiset{} - multiset{e} == h
  {
  }

  lemma HandlesBack2(h: multiset<EntryId>, e: EntryId)
    ensures h + multiset{e} + multiset{e} - multiset{e} - multiset{e} == h
  {
  }

  lemma IndexIs(r: seq<Record>, key: Key, i: nat)
    requires i < |r| && SameKey(key, r[i].key) && forall j :: 0 <= j < i ==> !SameKey(key, r[j].key)
    ensures IndexOf(r, key) == Some(i)
  {
    hide SameKey;
    if i > 0 {
      assert !SameKey(key, r[0].key);
      IndexIs(r[1..], key, i - 1);
    }
  }

  lemma NoRecords(key: Key)
    ensures IndexOf([], key) == None
  {
  }

  lemma ShownAt(s: State, i: nat)
    requires Counted(s) && i < |s.list|
    ensures s.list[i] in s.entries && Shown(s)[i] == RecordOf(s.entries[s.list[i]]) && |Shown(s)| == |s.list|
  {
    hide EntriesCounted, DataCounted, HandlesOk, DataOk, Accounts, Unique;
  }

  lemma GotLive(s: State, e: EntryId)
    requires e in s.entries && Live(s.entries)
    ensures Live(GetEntry(s, e).entries)
  {
  }

  predicate NoKey(r: seq<Record>, key: Key) {
    forall j :: 0 <= j < |r| ==> !SameKey(key, r[j].key)
  }

  /** With the one record of the key gone, no other has it. */
  lemma OnlyOne(s: State, key: Key)
    requires Counted(s)
    ensures NoKey(Without(Shown(s), key), key)
  {
    hide EntriesCounted, DataCounted, HandlesOk, DataOk, Accounts, SameKey;
    var r := Shown(s);
    var i := IndexOf(r, key);
    if i.Some? {
      forall j | 0 <= j < |r| && j != i.value ensures !SameKey(key, r[j].key) {
        if SameKey(key, r[j].key) {
          SameKeyFlip(key, r[j].key);
          SameKeyFlip(key, r[i.value].key);
          SameKeyTrans(r[j].key, key, r[i.value].key);
          SameKeyTrans(r[i.value].key, key, r[j].key);
        }
      }
      var w := RemoveAt(r, i.value);
      forall j | 0 <= j < |w| ensures !SameKey(key, w[j].key) {
        assert w[j] == r[if j < i.value then j else j + 1];
      }
    }
  }

  lemma OneEntry(s: State, i: nat)
    requires Counted(s) && i < |s.list|
    ensures s.list[i] in s.entries && 0 < |s.entries|
  {
    hide EntriesCounted, DataCounted, HandlesOk, DataOk, Accounts, Unique;
    assert s.list[i] in s.entries;
  }

  lemma UnlinkedFrame(s: State, s': State, i: nat)
    requires Unlinked(s, s', i)
    ensures s'.handles == s.handles && s'.dataHandles == s.dataHandles && s'.uncharged == s.uncharged && |s'.list| == |s.list| - 1
  {
  }

  lemma UnlinkedOther(s: State, s': State, i: nat, e: EntryId)
    requires Unlinked(s, s', i) && e in s.entries && e !in s.list
    ensures e in s'.entries && s'.entries[e] == s.entries[e] && e !in s'.list
  {
  }

  lemma ShownLength(s: State)
    requires Counted(s)
    ensures |Shown(s)| == |s.list|
  {
    hide EntriesCounted, DataCounted, HandlesOk, DataOk, Accounts, Unique;
  }

  lemma TwoEntries(s: State, e: EntryId)
    requires Counted(s) && s.list != [] && e in s.entries && e !in s.list
    ensures s.list[0] in s.entries && 1 < |s.entries|
  {
    hide EntriesCounted, DataCounted, HandlesOk, DataOk, Accounts, Unique;
    assert {e, s.list[0]} <= s.entries.Keys;
    SubsetSize({e, s.list[0]}, s.entries.Keys);
  }

  /** num counts the new entry beside every linked one. */
  lemma Crowd(s: State, e: EntryId)
    requires Counted(s) && e in s.entries && e !in s.list
    ensures |s.list| < s.num
  {
    hide EntriesCounted, DataCounted, HandlesOk, DataOk, Unique, DataSum;
    DistinctSize(s.list);
    var A := Elems(s.list);
    assert e !in A;
    assert A + {e} <= s.entries.Keys && |A + {e}| == |A| + 1;
    SubsetSize(A + {e}, s.entries.Keys);
    assert |s.entries| == |s.entries.Keys|;
  }

  function Elems(list: seq<EntryId>): set<EntryId> {
    set x | x in list
  }

  lemma {:induction false} DistinctSize(list: seq<EntryId>)
    requires forall i, j :: 0 <= i < j < |list| ==> list[i] != list[j]
    ensures |Elems(list)| == |list|
  {
    if list == [] {
      assert Elems(list) == {};
    } else {
      DistinctSize(list[1..]);
      var B := Elems(list[1..]);
      assert list[0] !in B;
      assert Elems(list) == B + {list[0]};
    }
  }

  lemma NoKeyInList(s: State, e: EntryId)
    requires Counted(s) && e in s.entries && NoKey(Shown(s), s.entries[e].key)
    ensures forall i :: 0 <= i < |s.list| ==> s.list[i] in s.entries && !SameKey(s.entries[s.list[i]].key, s.entries[e].key)
  {
    hide EntriesCounted, DataCounted, HandlesOk, DataOk, Accounts, Unique, SameKey;
    forall i | 0 <= i < |s.list| ensures s.list[i] in s.entries && !SameKey(s.entries[s.list[i]].key, s.entries[e].key) {
      assert !SameKey(s.entries[e].key, Shown(s)[i].key);
      SameKeyFlip(s.entries[e].key, Shown(s)[i].key);
    }
  }

  lemma ArmedLive(s: State, e: EntryId)
    requires e in s.entries && Live(s.entries)
    ensures Live(Arm(s, e).entries)
  {
  }

  lemma AddedLive(s: State, e: EntryId, key: Key, info: Info, d: DataId)
    requires Live(s.entries)
    ensures Live(AddEntry(s, e, key, info, d).entries)
  {
  }

  lemma NotListed(s: State, e: EntryId)
    requires Counted(s) && e !in s.entries
    ensures e !in s.list
  {
    hide EntriesCounted, DataCounted, HandlesOk, DataOk, Accounts, Unique;
  }

  lemma NoKeySuffix(r: seq<Record>, key: Key, k: nat)
    requires NoKey(r, key) && k <= |r|
    ensures NoKey(r[k..], key)
  {
    hide SameKey;
  }

  lemma FreshNext(entries: set<EntryId>, data: set<DataId>, nextEntry: nat, nextData: nat)
    requires Fresh(entries, data, nextEntry, nextData)
    ensures nextEntry !in entries && nextData !in data
    ensures Fresh(entries + {nextEntry}, data, nextEntry + 1, nextData) && Fresh(entries, data + {nextData}, nextEntry, nextData + 1)
  {
  }

  lemma InfoLive(s: State, e: EntryId, info: Info)
    requires e in s.entries && Live(s.entries)
    ensures Live(SetInfo(s, e, info).entries)
  {
  }

  lemma RefillLive(s: State, e: EntryId, d: DataId)
    requires e in s.entries && Live(s.entries)
    ensures Live(SetData(s, e, d).entries)
  {
  }

  lemma Moved(r: seq<Record>, i: nat, info: Info)
    requires i < |r|
    ensures var q := r[i := r[i].(info := info)]; q[..i] + q[i + 1..] + [q[i]] == RemoveAt(r, i) + [r[i].(info := info)]
  {
  }

  lemma DataBack(h: multiset<DataId>, d: DataId, was: DataId)
    ensures h - multiset{d} + multiset{was} - multiset{was} == h - multiset{d}
  {
  }

  lemma Gone(s: State, s': State, i: nat)
    requires Counted(s) && Unlinked(s, s', i)
    ensures s.list[i] !in s'.list
  {
    hide EntriesCounted, DataCounted, HandlesOk, DataOk, Accounts, Unique;
  }

  lemma FiredLive(s: State, e: EntryId)
    requires e in s.entries && Live(s.entries)
    ensures Live(Disarm(s, e).entries)
  {
  }

  lemma OneMore(s: State, e: EntryId)
    requires e in s.entries
    ensures |s.entries| > 0
  {
  }

  lemma ReleasedLinked(s: State, s': State, e: EntryId)
    requires Counted(s') && Released(s, s', e)
    ensures e in s.list ==> e in s'.entries && s'.entries[e].timer == s.entries[e].timer
  {
    hide EntriesCounted, DataCounted, HandlesOk, DataOk, Accounts, Unique;
  }

  lemma DataThere(s: State, e: EntryId)
    requires Counted(s) && e in s.entries && s.entries[e].data.Some?
    ensures s.entries[e].data.value in s.data
  {
    hide EntriesCounted, DataCounted, HandlesOk, ListOk, Accounts, Unique;
  }

  lemma LostStays(handles: multiset<EntryId>, lost: multiset<EntryId>, e: EntryId)
    requires Within(lost, handles)
    ensures Within(lost + multiset{e}, handles + multiset{e})
    ensures (handles + multiset{e}) - (lost + multiset{e}) == handles - lost
  {
  }

  /** The reference of a fired timer can be given back. */
  lemma FiredHeld(lost: multiset<EntryId>, handles: multiset<EntryId>, e: EntryId)
    requires Within(lost, handles)
    ensures Within(lost, handles + multiset{e}) && lost[e] < (handles + multiset{e})[e]
  {
  }

  /**
   * Conservation: with the list empty and nothing held by callers, the entries left are exactly those
   * with a lost reference, and count nothing else; without lost references everything was freed and
   * both totals are zero.
   */
  lemma NothingHeld(s: State, lost: multiset<EntryId>)
    requires Counted(s) && Live(s.entries) && s.list == [] && s.handles == lost && s.dataHandles == multiset{} && s.uncharged == 0
    ensures forall e :: e in s.entries <==> e in lost
    ensures forall e :: e in s.entries ==> s.entries[e].ref == lost[e] && !s.entries[e].timer
    ensures lost == multiset{} ==> s.entries == map[] && s.data == map[] && s.num == 0 && s.mem == 0
  {
    hide DataOk, Unique, Pointing, DataSum;
    if lost == multiset{} {
      assert s.entries.Keys == {};
      NoneThere(s);
      assert s.data.Keys == {};
      NoData();
    }
  }

  lemma NoData()
    ensures DataSum(map[]) == 0
  {
  }

  lemma NoneThere(s: State)
    requires s.entries == map[]
    ensures forall d :: |Pointing(s.entries, d)| == 0
  {
    assert forall d :: Pointing(s.entries, d) == {};
  }
}
