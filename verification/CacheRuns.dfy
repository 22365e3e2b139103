/**
 * The cache under every sequence of client calls (src/dns_cache.c). A client call takes its references
 * and gives them back, as the server does; expiries come in between. Whatever happens, a record shows
 * what was last written for its key, and nothing is held afterwards that was not held before.
 */
module CacheRuns {
  import opened Bytes
  import opened NameDecode
  import opened CacheSteps
  import opened Cache

  /** What a write stores, but for hit counts. */
  datatype Value = Value(rcode: int, ttl: int, speed: int, timeout: int, data: Option<DataId>)
  datatype Write = Write(key: Key, value: Value)

  function ValueOf(r: Record): Value {
    Value(r.info.rcode, r.info.ttl, r.info.speed, r.info.timeout, r.data)
  }

  /** The last write for the key; the log has an item for every call. */
  function Latest(log: seq<Option<Write>>, key: Key): Option<Value> {
    if log == [] then None
    else
      var w := log[|log| - 1];
      if w.Some? && SameKey(w.value.key, key) then Some(w.value.value) else Latest(log[..|log| - 1], key)
  }

  /** Every record shows the last write for its key. */
  ghost predicate Current(r: seq<Record>, log: seq<Option<Write>>) {
    forall i :: 0 <= i < |r| ==> Latest(log, r[i].key) == Some(ValueOf(r[i]))
  }

  // ---- What each kind of change does ----

  lemma LatestNext(log: seq<Option<Write>>, w: Option<Write>, key: Key)
    ensures Latest(log + [w], key) == if w.Some? && SameKey(w.value.key, key) then Some(w.value.value) else Latest(log, key)
  {
    hide SameKey;
    assert (log + [w])[..|log|] == log;
  }

  lemma CurrentSame(r: seq<Record>, log: seq<Option<Write>>)
    requires Current(r, log)
    ensures Current(r, log + [None])
  {
    hide SameKey, Latest;
    forall i | 0 <= i < |r| ensures Latest(log + [None], r[i].key) == Some(ValueOf(r[i])) {
      LatestNext(log, None, r[i].key);
    }
  }

  lemma CurrentPart(r: seq<Record>, r': seq<Record>, log: seq<Option<Write>>)
    requires Current(r, log) && forall i :: 0 <= i < |r'| ==> r'[i] in r
    ensures Current(r', log)
  {
    hide Latest;
    forall i | 0 <= i < |r'| ensures Latest(log, r'[i].key) == Some(ValueOf(r'[i])) {
      var j :| 0 <= j < |r| && r[j] == r'[i];
    }
  }

  lemma CurrentDropped(r: seq<Record>, r': seq<Record>, log: seq<Option<Write>>)
    requires Current(r, log) && Dropped(r, r')
    ensures Current(r', log + [None])
  {
    hide Latest;
    var i :| 0 <= i < |r| && r' == RemoveAt(r, i);
    RestIn(r, i);
    CurrentPart(r, r', log);
    CurrentSame(r', log);
  }

  lemma RestIn(r: seq<Record>, i: nat)
    requires i < |r|
    ensures forall j :: 0 <= j < |RemoveAt(r, i)| ==> RemoveAt(r, i)[j] in r
  {
    forall j | 0 <= j < |RemoveAt(r, i)| ensures RemoveAt(r, i)[j] in r {
      assert RemoveAt(r, i)[j] == r[if j < i then j else j + 1];
    }
  }

  /** Using a record moves it and counts; what it stores stays. */
  lemma CurrentUsed(r: seq<Record>, i: nat, log: seq<Option<Write>>)
    requires Current(r, log) && i < |r|
    ensures Current(RemoveAt(r, i) + [Used(r[i])], log + [None])
  {
    hide Latest;
    RestIn(r, i);
    CurrentPart(r, RemoveAt(r, i), log);
    CurrentSame(RemoveAt(r, i), log);
    LatestNext(log, None, r[i].key);
  }

  /** A write: the records kept have other keys, and the new one is last. */
  lemma CurrentWritten(kept: seq<Record>, new': Record, log: seq<Option<Write>>, key: Key)
    requires Current(kept, log) && NoKey(kept, key) && SameKey(key, new'.key)
    ensures Current(kept + [new'], log + [Some(Write(key, ValueOf(new')))])
  {
    hide Latest, SameKey;
    var w := Some(Write(key, ValueOf(new')));
    forall i | 0 <= i < |kept + [new']| ensures Latest(log + [w], (kept + [new'])[i].key) == Some(ValueOf((kept + [new'])[i])) {
      LatestNext(log, w, (kept + [new'])[i].key);
      if i < |kept| {
        assert !SameKey(key, kept[i].key);
      }
    }
  }

  lemma SelfKey(key: Key)
    ensures SameKey(key, key)
  {
  }

  // ---- Client calls ----

  datatype Op =
    | Insert(key: Key, rcode: int, ttl: int, speed: int, timeout: int, len: nat)
    | Replace(key: Key, rcode: int, ttl: int, speed: int, timeout: int, len: nat)
    | Use(key: Key)
    | Delete(key: Key)
    | Rearm(key: Key)
    | Expire(i: nat, act: Action, rearmed: bool)
    | Flush

  /**
   * What a call writes: an insert of data always does, and a replace may, each for its key and with its
   * values; nothing else does.
   */
  predicate Writes(op: Op, w: Option<Write>, size: int) {
    match op
    case Insert(key, rcode, ttl, speed, timeout, len) =>
      && (w.Some? <==> len > 0 && size > 0)
      && (w.Some? ==> w.value.key == Stored(key) && w.value.value == Value(rcode, AtLeast(ttl), speed, timeout, w.value.value.data))
    case Replace(key, rcode, ttl, speed, timeout, _) =>
      w.Some? ==> w.value.key == key && w.value.value == Value(rcode, AtLeast(ttl), speed, timeout, w.value.value.data)
    case _ => w.None?
  }

  /** Nothing is held afterwards that was not held before. */
  twostate predicate Settled(c: Store)
    reads c
  {
    c.handles - c.lost == old(c.handles - c.lost) && c.dataHandles == old(c.dataHandles)
  }

  method DoInsert(c: Store, op: Op, ghost log: seq<Option<Write>>) returns (ghost w: Option<Write>)
    requires c.Valid() && Current(Shown(c.S()), log) && op.Insert?
    modifies c
    ensures c.Valid() && Settled(c) && Writes(op, w, c.size) && Current(Shown(c.S()), log + [w])
  {
    hide Counted, Shown, Fresh, Live, Within, Latest, Stored, SameKey, Evicting, Without, Current;
    ghost var s := c.S();
    var d := c.NewPacket(op.len);
    var ret, trail := c.Insert(op.key, op.rcode, op.ttl, op.speed, op.timeout, d);
    if op.len > 0 && c.size > 0 {
      w := Some(Write(Stored(op.key), Value(op.rcode, AtLeast(op.ttl), op.speed, op.timeout, d)));
      WrittenAfter(s, op, d, trail, c.size, c.maxMem, log);
    } else {
      w := None;
      CurrentSame(Shown(s), log);
    }
    if d.Some? {
      assert s.dataHandles + multiset{d.value} - multiset{d.value} == s.dataHandles;
    }
  }

  lemma WrittenAfter(s: State, op: Op, d: Option<DataId>, trail: seq<State>, size: int, maxMem: int, log: seq<Option<Write>>)
    requires Counted(s) && Current(Shown(s), log) && op.Insert? && d.Some?
    requires Evicting(trail, Without(Shown(s), Stored(op.key)), size, maxMem)
    ensures var own := Stored(op.key);
            var new' := Record(own, Info(op.rcode, AtLeast(op.ttl), op.speed, op.timeout, 3, HITNUM_STEP), d);
            var base := Without(Shown(s), own);
            && 1 <= |trail| && |trail| - 1 <= |base|
            && Current(base[|trail| - 1..] + [new'], log + [Some(Write(own, Value(op.rcode, AtLeast(op.ttl), op.speed, op.timeout, d)))])
  {
    hide Counted, Shown, Latest, Stored, SameKey, Evicting, Current, Without, NoKey, IndexOf;
    var own := Stored(op.key);
    var base := Without(Shown(s), own);
    EvictingEnd(trail, base, size, maxMem);
    OnlyOne(s, own);
    NoKeySuffix(base, own, |trail| - 1);
    WithoutPart(Shown(s), own);
    SuffixPart(base, |trail| - 1);
    CurrentPart(Shown(s), base, log);
    CurrentPart(base, base[|trail| - 1..], log);
    SelfKey(own);
    CurrentWritten(base[|trail| - 1..], Record(own, Info(op.rcode, AtLeast(op.ttl), op.speed, op.timeout, 3, HITNUM_STEP), d), log, own);
  }

  lemma WithoutPart(r: seq<Record>, key: Key)
    ensures forall j :: 0 <= j < |Without(r, key)| ==> Without(r, key)[j] in r
  {
    hide IndexOf;
    var i := IndexOf(r, key);
    if i.Some? {
      RestIn(r, i.value);
    }
  }

  lemma SuffixPart(r: seq<Record>, k: nat)
    requires k <= |r|
    ensures forall j :: 0 <= j < |r[k..]| ==> r[k..][j] in r
  {
  }

  /** The calls of a replace, with new data if there is any. */
  method ReplaceCalls(c: Store, op: Op) returns (d: Option<DataId>)
    requires c.Valid() && op.Replace?
    modifies c
    ensures c.Valid() && c.handles == old(c.handles) && c.lost == old(c.lost) && c.dataHandles == old(c.dataHandles)
    ensures IndexOf(old(Shown(c.S())), op.key).None? ==> Shown(c.S()) == old(Shown(c.S()))
    ensures IndexOf(old(Shown(c.S())), op.key).Some? ==>
              var r := old(Shown(c.S()));
              var i := IndexOf(r, op.key).value;
              Shown(c.S()) == RemoveAt(r, i) + [Refreshed(r[i], op.rcode, AtLeast(op.ttl), op.speed, op.timeout, d)]
  {
    hide Counted, Shown, Fresh, Live, Within, SameKey, IndexOf, Refreshed;
    ghost var h := c.dataHandles;
    d := c.NewPacket(op.len);
    var ret := c.Replace(op.key, op.rcode, op.ttl, op.speed, op.timeout, d);
    if d.Some? {
      assert h + multiset{d.value} - multiset{d.value} == h;
      if ret != 0 {
        c.DataPut(d.value);
      }
    }
  }

  method DoReplace(c: Store, op: Op, ghost log: seq<Option<Write>>) returns (ghost w: Option<Write>)
    requires c.Valid() && Current(Shown(c.S()), log) && op.Replace?
    modifies c
    ensures c.Valid() && Settled(c) && Writes(op, w, c.size) && Current(Shown(c.S()), log + [w])
    ensures w.Some? <==> IndexOf(old(Shown(c.S())), op.key).Some?
  {
    hide Counted, Shown, Fresh, Live, Within, Latest, SameKey, IndexOf, Current, Refreshed;
    ghost var s, r := c.S(), Shown(c.S());
    var d := ReplaceCalls(c, op);
    ghost var i := IndexOf(r, op.key);
    if i.Some? {
      w := Some(Write(op.key, ValueOf(Refreshed(r[i.value], op.rcode, AtLeast(op.ttl), op.speed, op.timeout, d))));
      ReplacedAfter(s, op, d, log);
    } else {
      w := None;
      CurrentSame(r, log);
    }
  }

  lemma ReplacedAfter(s: State, op: Op, d: Option<DataId>, log: seq<Option<Write>>)
    requires Counted(s) && Current(Shown(s), log) && op.Replace? && IndexOf(Shown(s), op.key).Some?
    ensures var r, i := Shown(s), IndexOf(Shown(s), op.key).value;
            var new' := Refreshed(r[i], op.rcode, AtLeast(op.ttl), op.speed, op.timeout, d);
            && Current(RemoveAt(r, i) + [new'], log + [Some(Write(op.key, ValueOf(new')))])
            && ValueOf(new') == Value(op.rcode, AtLeast(op.ttl), op.speed, op.timeout, ValueOf(new').data)
  {
    hide Counted, Shown, Latest, SameKey, Current, NoKey, IndexOf;
    var r, i := Shown(s), IndexOf(Shown(s), op.key).value;
    OnlyOne(s, op.key);
    RestIn(r, i);
    CurrentPart(r, RemoveAt(r, i), log);
    CurrentWritten(RemoveAt(r, i), Refreshed(r[i], op.rcode, AtLeast(op.ttl), op.speed, op.timeout, d), log, op.key);
  }

  method DoUse(c: Store, key: Key, ghost log: seq<Option<Write>>)
    requires c.Valid() && Current(Shown(c.S()), log)
    modifies c
    ensures c.Valid() && Settled(c) && Current(Shown(c.S()), log + [None])
  {
    hide Counted, Shown, Fresh, Live, Within, Latest, SameKey, IndexOf, Current, Used;
    ghost var r, h := Shown(c.S()), c.handles;
    CurrentSame(r, log);
    HeldMore(c.lost, h);
    var e := c.Lookup(key);
    if e.Some? {
      c.Update(e.value);
      ghost var i :| 0 <= i < |r| && Shown(c.S()) == RemoveAt(r, i) + [Used(r[i])];
      CurrentUsed(r, i, log);
      c.GiveBack(e.value);
      assert h + multiset{e.value} - multiset{e.value} == h;
    }
  }

  /** A reference just taken can be given back. */
  lemma HeldMore(lost: multiset<EntryId>, handles: multiset<EntryId>)
    requires Within(lost, handles)
    ensures forall e :: lost[e] < (handles + multiset{e})[e]
  {
  }

  method DoDelete(c: Store, key: Key, ghost log: seq<Option<Write>>)
    requires c.Valid() && Current(Shown(c.S()), log)
    modifies c
    ensures c.Valid() && Settled(c) && Current(Shown(c.S()), log + [None])
  {
    hide Counted, Shown, Fresh, Live, Within, Latest, SameKey, IndexOf, Current;
    ghost var r, h := Shown(c.S()), c.handles;
    CurrentSame(r, log);
    HeldMore(c.lost, h);
    var e := c.Lookup(key);
    if e.Some? {
      c.Delete(e.value);
      assert Dropped(r, Shown(c.S()));
      CurrentDropped(r, Shown(c.S()), log);
      c.GiveBack(e.value);
      assert h + multiset{e.value} - multiset{e.value} == h;
    }
  }

  method DoExpire(c: Store, i: nat, act: Action, rearmed: bool, ghost log: seq<Option<Write>>)
    requires c.Valid() && Current(Shown(c.S()), log)
    modifies c
    ensures c.Valid() && Settled(c) && Current(Shown(c.S()), log + [None])
  {
    hide Counted, Shown, Fresh, Live, Within, Latest, Current;
    ghost var r := Shown(c.S());
    CurrentSame(r, log);
    if i < |c.list| {
      ShownAt(c.S(), i);
      if c.entries[c.list[i]].timer {
        c.Expired(c.list[i], act, rearmed);
        if act.Del? {
          CurrentDropped(r, Shown(c.S()), log);
        }
      }
    }
  }

  /** One client call or expiry. */
  method Do(c: Store, op: Op, ghost log: seq<Option<Write>>) returns (ghost w: Option<Write>)
    requires c.Valid() && Current(Shown(c.S()), log)
    modifies c
    ensures c.Valid() && Settled(c) && Writes(op, w, c.size) && Current(Shown(c.S()), log + [w])
  {
    hide Counted, Shown, Fresh, Live, Within, Latest, Current;
    w := None;
    match op {
      case Insert(_, _, _, _, _, _) => w := DoInsert(c, op, log);
      case Replace(_, _, _, _, _, _) => w := DoReplace(c, op, log);
      case Use(key) => DoUse(c, key, log);
      case Delete(key) => DoDelete(c, key, log);
      case Rearm(key) =>
        CurrentSame(Shown(c.S()), log);
        var ret := c.UpdateTimer(key);
      case Expire(i, act, rearmed) => DoExpire(c, i, act, rearmed, log);
      case Flush =>
        c.Flush();
        CurrentNone(log + [w]);
    }
  }

  lemma CurrentNone(log: seq<Option<Write>>)
    ensures Current([], log)
  {
  }

  /**
   * Every sequence of calls: the cache is sound and within its limit, a lookup finds what was written
   * last for the key or nothing, and everything the calls took was given back.
   */
  method Run(c: Store, ops: seq<Op>, ghost log: seq<Option<Write>>) returns (ghost writes: seq<Option<Write>>)
    requires c.Valid() && Current(Shown(c.S()), log)
    modifies c
    ensures c.Valid() && Settled(c) && |c.list| <= (if c.size <= 0 then 0 else c.size)
    ensures |writes| == |ops| && forall i :: 0 <= i < |ops| ==> Writes(ops[i], writes[i], c.size)
    ensures forall key :: var i := IndexOf(Shown(c.S()), key);
              i.Some? ==> Latest(log + writes, key) == Some(ValueOf(Shown(c.S())[i.value]))
  {
    hide Counted, Shown, Fresh, Live, Within, Latest, Current, Writes, IndexOf, SameKey;
    writes := [];
    assert log + [] == log;
    for i := 0 to |ops|
      invariant c.Valid() && c.handles - c.lost == old(c.handles - c.lost) && c.dataHandles == old(c.dataHandles)
      invariant |writes| == i && (forall j :: 0 <= j < i ==> Writes(ops[j], writes[j], c.size)) && Current(Shown(c.S()), log + writes)
    {
      var w := Do(c, ops[i], log + writes);
      assert log + writes + [w] == log + (writes + [w]);
      writes := writes + [w];
    }
    forall key | IndexOf(Shown(c.S()), key).Some?
      ensures Latest(log + writes, key) == Some(ValueOf(Shown(c.S())[IndexOf(Shown(c.S()), key).value]))
    {
      LatestFor(Shown(c.S()), log + writes, key);
    }
  }

  lemma LatestFor(r: seq<Record>, log: seq<Option<Write>>, key: Key)
    requires Current(r, log) && IndexOf(r, key).Some?
    ensures Latest(log, key) == Some(ValueOf(r[IndexOf(r, key).value]))
  {
    hide Latest, IndexOf, SameKey;
    LatestAlike(log, r[IndexOf(r, key).value].key, key);
  }

  /** The last write is the same for keys that are the same up to case. */
  lemma {:induction false} LatestAlike(log: seq<Option<Write>>, a: Key, b: Key)
    requires SameKey(b, a)
    ensures Latest(log, a) == Latest(log, b)
  {
    hide SameKey;
    if log != [] {
      var w := log[|log| - 1];
      if w.Some? {
        Alike(w.value.key, a, b);
      }
      LatestAlike(log[..|log| - 1], a, b);
    }
  }

  lemma Alike(k: Key, a: Key, b: Key)
    requires SameKey(b, a)
    ensures SameKey(k, a) == SameKey(k, b)
  {
    hide SameKey;
    SameKeyFlip(b, a);
    if SameKey(k, a) {
      SameKeyTrans(k, a, b);
    }
    if SameKey(k, b) {
      SameKeyTrans(k, b, a);
    }
  }
}
