/** What the name encoder promises its callers: one call, runs of calls, and where the promise fails. */
module NameTheorems {
  import opened Bytes
  import opened NameDecode
  import opened NameEncode
  import opened NameCircle
  import opened NameRoundTrip
  import opened NameSelf

  /** Between calls: everything behind the cursor is free; a dictionary item spells a name or leads into a circle. */
  ghost predicate Valid(c: Ctx, m: seq<Kind>, reg: seq<Name>) {
    |m| == |c.data| <= MAX_BUFFER && FreeFrom(m, c.ptr) && Entries(c.data, m, c.dict, reg)
  }

  /** One successful call: n is spelled at the old cursor, everything written before is untouched. */
  ghost predicate Spelled(c: Ctx, m: seq<Kind>, reg: seq<Name>, r: Enc, m': seq<Kind>, reg': seq<Name>, n: Name) {
    && Valid(r.c, m', reg') && reg <= reg' && c.dict <= r.c.dict
    && |r.c.data| == |c.data| == |m| && c.ptr < r.c.ptr < |c.data|
    && NameAt(r.c.data, m', c.ptr, n) && Cursor(r.c.data, c.ptr) == r.c.ptr
    && r.ret == r.c.ptr - c.ptr
    && r.c.data[..c.ptr] == c.data[..c.ptr] && m'[..c.ptr] == m[..c.ptr]
  }

  lemma EncodesRoot(c: Ctx, m: seq<Kind>, reg: seq<Name>) returns (m': seq<Kind>)
    requires Valid(c, m, reg) && EncodeName(c, []).ret >= 0
    ensures Spelled(c, m, reg, EncodeName(c, []), m', reg, [])
  {
    hide NameAt, Cursor;
    var r := EncodeName(c, []);
    m' := m[c.ptr := Length];
    assert r.c.data == c.data[c.ptr := 0];
    KeepsBelow(c.data, m, r.c.data, m', c.ptr);
    EntriesKept(c.data, m, r.c.data, m', c.dict, reg);
    NameRoot(r.c.data, m', c.ptr);
  }

  /** No suffix of n finds, in the dictionary as it grows during the call, a readable entry of n itself. */
  ghost predicate Clear(c: Ctx, reg: seq<Name>, n: Name) {
    SparesItself(c.(ptr := c.ptr + 1), reg, n)
  }

  /** The state in which the loop of a call for a non-empty name starts. */
  lemma CallStarts(c: Ctx, m: seq<Kind>, reg: seq<Name>, n: Name) returns (c2: Ctx, offset: int)
    requires Valid(c, m, reg) && n != [] && WellFormed(n) && Clear(c, reg, n) && Left(c) > 2
    ensures c2.data == c.data && c2.ptr == c.ptr + 1 && AtSuffix(c2, m, reg, offset, n, 1)
    ensures EncodeName(c, Join(n)) == LoopAt(c2, offset, n, 1)
    ensures c2.dict[..|reg|] == c.dict
    ensures c2.dict == c.dict
            || (offset < 0 && c2.dict == c.dict + [DictItem(Hash(n), c.ptr)])
  {
    hide NameAt, Hash, Join, Lookup, EncodeLoop, AtSuffix, Entry, SparesItself;
    var c1 := c.(ptr := c.ptr + 1);
    assert c1.dict[..|reg|] == c.dict;
    c2, offset := AtLookup(c1, m, reg, n, 1);
  }

  /** A cut call aside, a successful call spells what Resolve says, and registers only true entries. */
  lemma EncodeSpells(c: Ctx, m: seq<Kind>, reg: seq<Name>, n: Name) returns (m': seq<Kind>, reg': seq<Name>)
    requires Valid(c, m, reg) && WellFormed(n) && Clear(c, reg, n)
    requires EncodeName(c, Join(n)).ret >= 0 && (n == [] || Left(c) != 2)
    ensures Spelled(c, m, reg, EncodeName(c, Join(n)), m', reg', Resolve(c.dict, reg, n))
    ensures Resolve(c.dict, reg, n) == n ==> Own(EncodeName(c, Join(n)).c.dict[|c.dict|..], reg'[|reg|..], n)
  {
    if n == [] {
      m' := EncodesRoot(c, m, reg);
      reg' := reg;
    } else {
      SuccessHasRoom(c, n);
      m', reg' := EncodeSpellsLabels(c, m, reg, n);
    }
  }

  lemma SuccessHasRoom(c: Ctx, n: Name)
    requires n != [] && EncodeName(c, Join(n)).ret >= 0 && Left(c) != 2
    ensures Left(c) > 2
  {
    hide Lookup, Join;
  }

  lemma EncodeSpellsLabels(c: Ctx, m: seq<Kind>, reg: seq<Name>, n: Name) returns (m': seq<Kind>, reg': seq<Name>)
    requires Valid(c, m, reg) && n != [] && WellFormed(n) && Clear(c, reg, n) && Left(c) > 2
    requires EncodeName(c, Join(n)).ret >= 0
    ensures Spelled(c, m, reg, EncodeName(c, Join(n)), m', reg', Resolve(c.dict, reg, n))
    ensures Resolve(c.dict, reg, n) == n ==> Own(EncodeName(c, Join(n)).c.dict[|c.dict|..], reg'[|reg|..], n)
  {
    hide NameAt, Hash, Join, Fits, LoopAt, EncodeName, Cursor, Resolve, Entry;
    var c2, offset := CallStarts(c, m, reg, n);
    var more;
    m', more := EncodesSuffix(c2, m, reg, offset, n, 1);
    var r := EncodeName(c, Join(n));
    KeepsBelow(c.data, m, r.c.data, m', c.ptr);
    EntriesKept(c.data, m, r.c.data, m', c.dict, reg);
    var added := more;
    if c2.dict != c.dict {
      ResolveNonEmpty(c.dict, reg, n);
      assert r.c.dict[|c.dict|] == c2.dict[|c.dict|];
      EntryAt(r.c.data, m', r.c.dict[|c.dict|], Resolve(c.dict, reg, n));
      EntriesPrepend(r.c.data, m', r.c.dict, |c.dict|, more, Resolve(c.dict, reg, n));
      added := [Resolve(c.dict, reg, n)] + more;
    }
    reg' := reg + added;
    EntriesAppend(r.c.data, m', r.c.dict, c.dict, reg, added);
    assert reg'[|reg|..] == added;
    if Resolve(c.dict, reg, n) == n {
      OwnWhole(c.dict, c2.dict, r.c.dict, more, n);
    }
  }

  lemma OwnWhole(old': seq<DictItem>, dict2: seq<DictItem>, dict: seq<DictItem>, more: seq<Name>, n: Name)
    requires n != [] && dict2 <= dict && Own(dict[|dict2|..], more, n)
    requires dict2 == old' || (|dict2| == |old'| + 1 && old' <= dict2 && dict2[|old'|].hash == Hash(n))
    ensures Own(dict[|old'|..], if dict2 == old' then more else [n] + more, n)
  {
    hide Hash;
    if dict2 != old' {
      assert dict[|old'|..] == [dict[|old'|]] + dict[|dict2|..] && dict[|old'|] == dict2[|old'|];
    }
  }

  lemma EntryAt(b: seq<byte>, m: seq<Kind>, item: DictItem, n: Name)
    requires NameAt(b, m, item.pos, n) && n != [] && item.pos < |b| && 0 < b[item.pos] < 64
    ensures Entry(b, m, item, n)
  {
  }

  lemma EntriesAppend(b: seq<byte>, m: seq<Kind>, dict: seq<DictItem>, old': seq<DictItem>, reg: seq<Name>, more: seq<Name>)
    requires old' <= dict && Entries(b, m, old', reg) && Entries(b, m, dict[|old'|..], more)
    ensures Entries(b, m, dict, reg + more)
  {
    hide Entry;
    forall i | 0 <= i < |dict| ensures Entry(b, m, dict[i], (reg + more)[i]) {
      if i < |old'| {
        assert dict[i] == old'[i];
      } else {
        assert dict[i] == dict[|old'|..][i - |old'|];
      }
    }
  }

  // ---- The text determines the labels ----

  lemma FirstDot(n: Name)
    requires n != [] && WellFormed(n)
    ensures |n[0]| <= |Join(n)| && forall i :: 0 <= i < |n[0]| ==> Join(n)[i] != DOT
    ensures |n| == 1 ==> |Join(n)| == |n[0]|
    ensures |n| > 1 ==> |Join(n)| > |n[0]| && Join(n)[|n[0]|] == DOT
  {
    assert IsLabel(n[0]);
    JoinHead(n);
  }

  lemma {:induction false} JoinInjective(a: Name, b: Name)
    requires WellFormed(a) && WellFormed(b) && Join(a) == Join(b)
    ensures a == b
    decreases |a|
  {
    if a != [] && b != [] {
      FirstDot(a);
      FirstDot(b);
      JoinHead(a);
      JoinHead(b);
      assert a[0] == Join(a)[..|a[0]|] == b[0];
      assert Join(a)[|a[0]|..] == if |a| == 1 then [] else [DOT] + Join(a[1..]);
      assert Join(b)[|b[0]|..] == if |b| == 1 then [] else [DOT] + Join(b[1..]);
      if |a| > 1 {
        assert Join(a)[|a[0]| + 1..] == Join(a[1..]) && Join(b)[|b[0]| + 1..] == Join(b[1..]);
        JoinInjective(a[1..], b[1..]);
      }
      assert a == [a[0]] + a[1..] && b == [b[0]] + b[1..];
    } else {
      JoinEmpty(a);
      JoinEmpty(b);
    }
  }

  lemma JoinEmpty(n: Name)
    requires WellFormed(n)
    ensures Join(n) == [] <==> n == []
  {
  }

  lemma {:induction false} SpelledWellFormed(b: seq<byte>, m: seq<Kind>, p: nat, n: Name)
    requires NameAt(b, m, p, n)
    ensures WellFormed(n)
    decreases |n|, p
  {
    if n != [] {
      if b[p] >= 0xC0 {
        SpelledWellFormed(b, m, Target(b, p), n);
      } else {
        SpelledWellFormed(b, m, p + 1 + |n[0]|, n[1..]);
      }
    }
  }

  // ---- When a name comes back ----

  /** The first suffix of n with a hash in the dictionary, if any, is registered as itself. */
  ghost predicate FirstHitAgrees(dict: seq<DictItem>, reg: seq<Name>, n: Name)
    requires |dict| == |reg|
  {
    n == [] ||
    var i := FindHash(dict, Hash(n));
    if i < |dict| && Usable(reg[i]) then reg[i] == n else FirstHitAgrees(dict, reg, n[1..])
  }

  lemma {:induction false} AgreesIffResolved(dict: seq<DictItem>, reg: seq<Name>, n: Name)
    requires |dict| == |reg|
    ensures FirstHitAgrees(dict, reg, n) <==> Resolve(dict, reg, n) == n
    decreases |n|
  {
    if n != [] {
      AgreesIffResolved(dict, reg, n[1..]);
      assert n == [n[0]] + n[1..];
      assert ([n[0]] + Resolve(dict, reg, n[1..]))[1..] == Resolve(dict, reg, n[1..]);
    }
  }

  /** With exactly two bytes left a non-empty name is written as the root name, and reported as one byte. */
  lemma CutCall(c: Ctx, name: Text)
    requires name != [] && Left(c) == 2
    ensures var r := EncodeName(c, name);
            r.ret == 1 && r.c.ptr == c.ptr + 1 && Expand(r.c.data, c.ptr, [], MAX_CNAME_LEN, 0) == Some([])
  {
    hide Lookup;
    var found := Lookup(c.(ptr := c.ptr + 1), name);
    assert EncodeName(c, name) == Finish(found.c, c.ptr, 0, 1);
  }

  /**
   * Exactly when a successful call can be read back: the name is the root or the buffer had not
   * exactly two bytes left; the first hit in the dictionary, as the suffixes of the name itself are
   * added to it, is not one of those, and is a true one; and the text fits the reader.
   */
  lemma RoundTripIff(c: Ctx, m: seq<Kind>, reg: seq<Name>, n: Name)
    requires Valid(c, m, reg) && WellFormed(n) && EncodeName(c, Join(n)).ret >= 0
    ensures Expand(EncodeName(c, Join(n)).c.data, c.ptr, [], MAX_CNAME_LEN, 0) == Some(Join(n))
            <==> (n == [] || Left(c) != 2) && Clear(c, reg, n) && FirstHitAgrees(c.dict, reg, n) && Fits(n)
  {
    hide NameAt, Hash, Join, EncodeName, Cursor, Resolve, Expand, FirstHitAgrees, Clear;
    JoinEmpty(n);
    if n != [] && Left(c) == 2 {
      CutCall(c, Join(n));
    } else if Clear(c, reg, n) {
      var m', reg' := EncodeSpells(c, m, reg, n);
      var r, w := EncodeName(c, Join(n)), Resolve(c.dict, reg, n);
      NameDecodes(r.c.data, m', c.ptr, w, [], MAX_CNAME_LEN, 0);
      assert [] + Join(w) == Join(w);
      SpelledWellFormed(r.c.data, m', c.ptr, w);
      AgreesIffResolved(c.dict, reg, n);
      if Join(w) == Join(n) {
        JoinInjective(w, n);
      }
      JoinEmpty(w);
    } else {
      RootIsClear(c, reg, n);
      var m', reg' := CircleWritten(c, m, reg, n);
    }
  }

  /**
   * A call that hits the name itself succeeds with a name that points into itself and can never be
   * read; it reports the bytes written, keeps everything before it, and all it registered is dead.
   */
  lemma CircleWritten(c: Ctx, m: seq<Kind>, reg: seq<Name>, n: Name) returns (m': seq<Kind>, reg': seq<Name>)
    requires Valid(c, m, reg) && WellFormed(n) && !Clear(c, reg, n) && EncodeName(c, Join(n)).ret >= 0 && Left(c) != 2
    ensures var r := EncodeName(c, Join(n));
            && Valid(r.c, m', reg') && reg <= reg' && Keeps(c.data, m, r.c.data, m') && r.ret == r.c.ptr - c.ptr
            && Dead(r.c.data, m', c.ptr) && Expand(r.c.data, c.ptr, [], MAX_CNAME_LEN, 0) == None
  {
    hide NameAt, Hash, Join, Lookup, Expand, SparesItself, Entry, FreeFrom, Closed, Dead;
    RootIsClear(c, reg, n);
    SuccessHasRoom(c, n);
    var c1 := c.(ptr := c.ptr + 1);
    assert c1.dict[..|reg|] == c.dict;
    StartsChain(c.data, c.ptr);
    m' := SelfPointing(c1, m, reg, n, c.ptr, 1);
    reg' := CircleValid(c, c1, m, reg, EncodeName(c, Join(n)).c, m');
    DeadFails(EncodeName(c, Join(n)).c.data, m', c.ptr);
  }

  lemma StartsChain(b: seq<byte>, p: nat)
    ensures Chain(b, p, p)
  {
  }

  lemma CircleValid(c: Ctx, c1: Ctx, m: seq<Kind>, reg: seq<Name>, r: Ctx, m': seq<Kind>) returns (reg': seq<Name>)
    requires Valid(c, m, reg) && c1 == c.(ptr := c.ptr + 1) && Closed(c1, m, |reg|, c.ptr, r, m')
    ensures Valid(r, m', reg') && reg <= reg' && Keeps(c.data, m, r.data, m') && Dead(r.data, m', c.ptr)
  {
    hide Entry, FreeFrom, Dead, Keeps;
    var more: seq<Name> := seq(|r.dict| - |reg|, i => []);
    reg' := reg + more;
    KeepsBelow(c.data, m, r.data, m', c.ptr);
    EntriesKept(c.data, m, r.data, m', c.dict, reg);
    forall i | 0 <= i < |more| ensures Entry(r.data, m', r.dict[|c.dict|..][i], more[i]) {
      DeadEntry(r.data, m', r.dict[|reg| + i]);
    }
    EntriesAppend(r.data, m', r.dict, c.dict, reg, more);
  }

  lemma DeadEntry(b: seq<byte>, m: seq<Kind>, item: DictItem)
    requires Dead(b, m, item.pos)
    ensures Entry(b, m, item, [])
  {
  }

  /**
   * Such names exist, and nothing else is wrong with them: with an empty dictionary and over zero bytes,
   * every name that begins with the label "1ltxxpe" is written in ten bytes as a pointer to itself.
   */
  lemma CircleExample(c: Ctx, rest: Name)
    requires c.dict == [] && |c.data| <= MAX_BUFFER && c.ptr + 10 < |c.data| && c.data[c.ptr + 8] == 0
    requires rest != [] && WellFormed(rest) && Hash(rest) != 0
    ensures var n := [ZERO_LABEL] + rest;
            && WellFormed(n) && Left(c) != 2 && FirstHitAgrees(c.dict, [], n) && !Clear(c, [], n)
            && EncodeName(c, Join(n)).ret == 10
            && Expand(EncodeName(c, Join(n)).c.data, c.ptr, [], MAX_CNAME_LEN, 0) == None
  {
    hide Hash, Join, EncodeName, Expand, SparesItself, FirstHitAgrees;
    PointsToItself(c, rest);
    EmptyAgrees([ZERO_LABEL] + rest);
  }

  lemma {:induction false} EmptyAgrees(n: Name)
    ensures FirstHitAgrees([], [], n)
    decreases |n|
  {
    hide Hash, Fits;
    if n != [] {
      EmptyAgrees(n[1..]);
    }
  }

  lemma RootIsClear(c: Ctx, reg: seq<Name>, n: Name)
    ensures n == [] ==> Clear(c, reg, n)
  {
  }

  // ---- Runs of calls on one dictionary ----

  /** dict_hash tells the names in S apart; with every name S holds its suffixes. */
  ghost predicate HashTellsApart(S: set<Name>) {
    && (forall a, b :: a in S && b in S && Hash(a) == Hash(b) ==> a == b)
    && (forall n, k :: n in S && 0 < k < |n| ==> n[k..] in S)
    && forall n :: n in S ==> WellFormed(n)
  }

  ghost predicate Truthful(dict: seq<DictItem>, reg: seq<Name>, S: set<Name>) {
    |dict| == |reg| && forall i :: 0 <= i < |reg| ==> dict[i].hash == Hash(reg[i]) && reg[i] in S && reg[i] != []
  }

  lemma {:induction false} TruthfulResolves(dict: seq<DictItem>, reg: seq<Name>, n: Name, S: set<Name>)
    requires HashTellsApart(S) && Truthful(dict, reg, S) && (n == [] || n in S)
    ensures Resolve(dict, reg, n) == n
    decreases |n|
  {
    hide Hash, Fits;
    if n != [] {
      assert |n| > 1 ==> n[1..] in S;
      TruthfulResolves(dict, reg, n[1..], S);
      assert n == [n[0]] + n[1..];
    }
  }

  lemma SuffixesDiffer(c: Ctx, reg: seq<Name>, n: Name, S: set<Name>)
    requires HashTellsApart(S) && (n == [] || n in S) && |reg| == |c.dict|
    ensures Clear(c, reg, n)
  {
    hide Hash, WellFormed, SparesItself;
    forall j, k | 0 <= j < k < |n| ensures Hash(n[j..]) != Hash(n[k..]) {
      assert n[0..] == n;
      assert n[j..] in S && n[k..] in S && |n[j..]| != |n[k..]|;
    }
    DistinctSpares(c.(ptr := c.ptr + 1), reg, n);
  }

  lemma TruthfulGrows(dict: seq<DictItem>, reg: seq<Name>, dict': seq<DictItem>, reg': seq<Name>, n: Name, S: set<Name>)
    requires HashTellsApart(S) && Truthful(dict, reg, S) && (n == [] || n in S)
    requires dict <= dict' && reg <= reg' && Own(dict'[|dict|..], reg'[|reg|..], n)
    ensures Truthful(dict', reg', S)
  {
    hide Hash, WellFormed;
    forall i | 0 <= i < |reg'| ensures dict'[i].hash == Hash(reg'[i]) && reg'[i] in S && reg'[i] != [] {
      if i >= |reg| {
        var s := reg'[|reg|..][i - |reg|];
        assert dict'[|dict|..][i - |dict|] == dict'[i] && s == reg'[i];
        assert IsSuffix(s, n) && n[0..] == n;
      }
    }
  }

  /** One call on a truthful dictionary: the name itself is spelled, and the dictionary stays truthful. */
  lemma EncodeTrue(c: Ctx, m: seq<Kind>, reg: seq<Name>, n: Name, S: set<Name>) returns (m': seq<Kind>, reg': seq<Name>)
    requires Valid(c, m, reg) && Truthful(c.dict, reg, S) && HashTellsApart(S) && (n == [] || n in S)
    requires EncodeName(c, Join(n)).ret >= 0 && (n == [] || Left(c) != 2)
    ensures Spelled(c, m, reg, EncodeName(c, Join(n)), m', reg', n) && Truthful(EncodeName(c, Join(n)).c.dict, reg', S)
  {
    hide Hash, Join, EncodeName, Resolve, WellFormed, Entries, FreeFrom, NameAt, Cursor, Clear;
    TruthfulResolves(c.dict, reg, n, S);
    SuffixesDiffer(c, reg, n, S);
    RootWellFormed();
    m', reg' := EncodeSpells(c, m, reg, n);
    TruthfulGrows(c.dict, reg, EncodeName(c, Join(n)).c.dict, reg', n, S);
  }

  lemma RootWellFormed()
    ensures WellFormed([])
  {
  }

  /** Every call of the run succeeds, and none of them is a cut call. */
  ghost predicate RunSucceeds(c: Ctx, names: seq<Name>)
    decreases |names|
  {
    names == [] ||
    (EncodeName(c, Join(names[0])).ret >= 0 && (names[0] == [] || Left(c) != 2)
     && RunSucceeds(EncodeName(c, Join(names[0])).c, names[1..]))
  }

  ghost function RunEnd(c: Ctx, names: seq<Name>): Ctx
    decreases |names|
  {
    if names == [] then c else RunEnd(EncodeName(c, Join(names[0])).c, names[1..])
  }

  lemma SpelledKeeps(c: Ctx, m: seq<Kind>, reg: seq<Name>, r: Enc, m': seq<Kind>, reg': seq<Name>, n: Name)
    requires Valid(c, m, reg) && Spelled(c, m, reg, r, m', reg', n)
    ensures Keeps(c.data, m, r.c.data, m')
  {
    KeepsBelow(c.data, m, r.c.data, m', c.ptr);
  }

  lemma {:induction false} RunKeeps(c: Ctx, m: seq<Kind>, reg: seq<Name>, names: seq<Name>, S: set<Name>)
    returns (m': seq<Kind>, reg': seq<Name>)
    requires Valid(c, m, reg) && Truthful(c.dict, reg, S) && HashTellsApart(S) && RunSucceeds(c, names)
    requires forall i :: 0 <= i < |names| ==> names[i] == [] || names[i] in S
    ensures Valid(RunEnd(c, names), m', reg') && Keeps(c.data, m, RunEnd(c, names).data, m')
    decreases |names|
  {
    hide Hash, Join, EncodeName, WellFormed, Entries, FreeFrom, NameAt, Cursor, Truthful, HashTellsApart;
    if names == [] {
      m', reg' := m, reg;
    } else {
      var r := EncodeName(c, Join(names[0]));
      var m1, reg1 := EncodeTrue(c, m, reg, names[0], S);
      SpelledKeeps(c, m, reg, r, m1, reg1, names[0]);
      m', reg' := RunKeeps(r.c, m1, reg1, names[1..], S);
      KeepsTransitive(c.data, m, r.c.data, m1, RunEnd(c, names).data, m');
    }
  }

  lemma KeepsTransitive(b: seq<byte>, m: seq<Kind>, b1: seq<byte>, m1: seq<Kind>, b2: seq<byte>, m2: seq<Kind>)
    requires Keeps(b, m, b1, m1) && Keeps(b1, m1, b2, m2)
    ensures Keeps(b, m, b2, m2)
  {
  }

  /**
   * Compression round trip: after any successful run of calls on one buffer and dictionary, name j
   * decodes at the position it was written to, the cursor ends where that call left it, and the
   * call returned the number of bytes it wrote.
   */
  lemma {:induction false} CompressionRoundTrip(c: Ctx, m: seq<Kind>, reg: seq<Name>, names: seq<Name>, S: set<Name>, j: nat)
    requires Valid(c, m, reg) && Truthful(c.dict, reg, S) && HashTellsApart(S) && RunSucceeds(c, names)
    requires forall i :: 0 <= i < |names| ==> names[i] == [] || names[i] in S
    requires j < |names| && Fits(names[j])
    ensures var before := RunEnd(c, names[..j]); var after := RunEnd(c, names[..j + 1]); var end := RunEnd(c, names);
            && Expand(end.data, before.ptr, [], MAX_CNAME_LEN, 0) == Some(Join(names[j]))
            && Cursor(end.data, before.ptr) == after.ptr
            && EncodeName(before, Join(names[j])) == Enc(after, after.ptr - before.ptr)
    decreases |names|
  {
    hide Hash, Join, EncodeName, WellFormed, Entries, FreeFrom, NameAt, Cursor, Truthful, HashTellsApart, Expand, Keeps;
    var r := EncodeName(c, Join(names[0]));
    var m1, reg1 := EncodeTrue(c, m, reg, names[0], S);
    if j == 0 {
      var m2, reg2 := RunKeeps(r.c, m1, reg1, names[1..], S);
      var b := RunEnd(r.c, names[1..]).data;
      NameKept(r.c.data, m1, b, m2, c.ptr, names[0]);
      NameDecodes(b, m2, c.ptr, names[0], [], MAX_CNAME_LEN, 0);
      FitsOnto(names[0]);
      assert names[..0] == [] && names[..1] == [names[0]] && names[..1][1..] == [];
    } else {
      CompressionRoundTrip(r.c, m1, reg1, names[1..], S, j - 1);
      assert names[..j][0] == names[0] && names[..j][1..] == names[1..][..j - 1];
      assert names[..j + 1][0] == names[0] && names[..j + 1][1..] == names[1..][..j];
    }
  }

  // ---- Runs of any names ----

  /** Any successful call but a cut one leaves the buffer sound; what it wrote spells a name or is dead for good. */
  lemma AnyCall(c: Ctx, m: seq<Kind>, reg: seq<Name>, n: Name) returns (m': seq<Kind>, reg': seq<Name>)
    requires Valid(c, m, reg) && WellFormed(n) && EncodeName(c, Join(n)).ret >= 0 && (n == [] || Left(c) != 2)
    ensures var r := EncodeName(c, Join(n)).c;
            && Valid(r, m', reg') && Keeps(c.data, m, r.data, m')
            && (if Clear(c, reg, n) then NameAt(r.data, m', c.ptr, Resolve(c.dict, reg, n)) else Dead(r.data, m', c.ptr))
  {
    hide NameAt, Hash, Join, EncodeName, Cursor, Resolve, Clear, Dead, Keeps, Entry, FreeFrom;
    if Clear(c, reg, n) {
      m', reg' := EncodeSpells(c, m, reg, n);
      SpelledKeeps(c, m, reg, EncodeName(c, Join(n)), m', reg', Resolve(c.dict, reg, n));
    } else {
      RootIsClear(c, reg, n);
      m', reg' := CircleWritten(c, m, reg, n);
    }
  }

  lemma {:induction false} AnyRunKeeps(c: Ctx, m: seq<Kind>, reg: seq<Name>, names: seq<Name>) returns (m': seq<Kind>)
    requires Valid(c, m, reg) && RunSucceeds(c, names) && forall i :: 0 <= i < |names| ==> WellFormed(names[i])
    ensures Keeps(c.data, m, RunEnd(c, names).data, m')
    decreases |names|
  {
    hide Join, EncodeName, WellFormed, Entries, FreeFrom, Keeps, NameAt, Clear, Resolve, Dead;
    if names == [] {
      m' := m;
      KeepsSelf(c.data, m);
    } else {
      var r := EncodeName(c, Join(names[0]));
      var m1, reg1 := AnyCall(c, m, reg, names[0]);
      m' := AnyRunKeeps(r.c, m1, reg1, names[1..]);
      KeepsTransitive(c.data, m, r.c.data, m1, RunEnd(c, names).data, m');
    }
  }

  lemma KeepsSelf(b: seq<byte>, m: seq<Kind>)
    requires |m| == |b|
    ensures Keeps(b, m, b, m)
  {
  }

  /** What one call wrote reads the same as long as names are kept. */
  lemma ReadsOn(c: Ctx, reg: seq<Name>, n: Name, b: seq<byte>, r: seq<byte>, m1: seq<Kind>, m2: seq<Kind>)
    requires if Clear(c, reg, n) then |c.dict| == |reg| && NameAt(r, m1, c.ptr, Resolve(c.dict, reg, n)) else Dead(r, m1, c.ptr)
    requires Keeps(r, m1, b, m2)
    ensures Expand(b, c.ptr, [], MAX_CNAME_LEN, 0) == Expand(r, c.ptr, [], MAX_CNAME_LEN, 0)
  {
    hide NameAt, Expand, Clear, Resolve, Dead, Keeps;
    if Clear(c, reg, n) {
      var w := Resolve(c.dict, reg, n);
      NameKept(r, m1, b, m2, c.ptr, w);
      NameDecodes(r, m1, c.ptr, w, [], MAX_CNAME_LEN, 0);
      NameDecodes(b, m2, c.ptr, w, [], MAX_CNAME_LEN, 0);
    } else {
      DeadKept(r, m1, b, m2, c.ptr);
      DeadFails(r, m1, c.ptr);
      DeadFails(b, m2, c.ptr);
    }
  }

  /**
   * Any run of successful calls with any names, whatever their hashes: where name j was written the
   * buffer reads at the end as it did right after the call, and that is the name if and only if the
   * call did not hit the name itself, its first hit was true and the text fits. regJ is what the entries of
   * the dictionary spelled when the call was made.
   */
  lemma {:induction false} RunRoundTripIff(c: Ctx, m: seq<Kind>, reg: seq<Name>, names: seq<Name>, j: nat)
    returns (mJ: seq<Kind>, regJ: seq<Name>)
    requires Valid(c, m, reg) && RunSucceeds(c, names) && j < |names| && forall i :: 0 <= i < |names| ==> WellFormed(names[i])
    ensures var before := RunEnd(c, names[..j]); var end := RunEnd(c, names); var n := names[j];
            var read := Expand(end.data, before.ptr, [], MAX_CNAME_LEN, 0);
            && Valid(before, mJ, regJ)
            && read == Expand(EncodeName(before, Join(n)).c.data, before.ptr, [], MAX_CNAME_LEN, 0)
            && (read == Some(Join(n)) <==> Clear(before, regJ, n) && FirstHitAgrees(before.dict, regJ, n) && Fits(n))
    decreases |names|
  {
    hide Join, EncodeName, WellFormed, FreeFrom, Keeps, NameAt, Clear, Resolve, Dead, Expand, FirstHitAgrees, Fits, Entry;
    var r := EncodeName(c, Join(names[0]));
    var m1, reg1 := AnyCall(c, m, reg, names[0]);
    if j == 0 {
      mJ, regJ := m, reg;
      var m2 := AnyRunKeeps(r.c, m1, reg1, names[1..]);
      ReadsOn(c, reg, names[0], RunEnd(r.c, names[1..]).data, r.c.data, m1, m2);
      RoundTripIff(c, m, reg, names[0]);
      assert names[..0] == [];
    } else {
      mJ, regJ := RunRoundTripIff(r.c, m1, reg1, names[1..], j - 1);
      assert names[..j][0] == names[0] && names[..j][1..] == names[1..][..j - 1];
    }
  }

  lemma FitsOnto(n: Name)
    requires Fits(n)
    ensures JoinOnto([], n) == Join(n) && |JoinOnto([], n)| < MAX_CNAME_LEN - 1
  {
    assert [] + Join(n) == Join(n);
  }

  /** A two-character name of one label, with room to spare and no dictionary hit. */
  lemma TwoCharacters(c: Ctx, x: byte, y: byte)
    requires Left(c) > 5 && c.dict == [] && DOT != x && DOT != y && DictHash([x, y]) > 0
    ensures var r := EncodeName(c, [x, y]); r.ret == 4 && r.c.dict == [DictItem(DictHash([x, y]), c.ptr % 0x1_0000)]
  {
    hide DictHash, Expand;
    var c2 := Lookup(c.(ptr := c.ptr + 1), [x, y]).c;
    assert c2.dict == [DictItem(DictHash([x, y]), c.ptr % 0x1_0000)];
    CopiesChar(c2, c.ptr, 0, [x, y], 1);
    var c3 := c2.(data := c2.data[c2.ptr := x], ptr := c2.ptr + 1);
    assert [x, y][1..] == [y] && [y][1..] == [];
    CopiesChar(c3, c.ptr, 1, [y], 2);
    LoopEnds(c3.(data := c3.data[c3.ptr := y], ptr := c3.ptr + 1), c.ptr, 2, 3);
  }

  /**
   * Without the hash condition the round trip fails: "Aa" and "BB" have the same dict_hash, so the
   * second call succeeds and does not write its name.
   */
  lemma CollisionExample(c: Ctx)
    requires |c.data| == 512 && c.ptr == 12 && c.dict == []
    ensures var first := EncodeName(c, [65, 97]); var second := EncodeName(first.c, [66, 66]);
            && first.ret >= 0 && second.ret >= 0
            && Expand(second.c.data, first.c.ptr, [], MAX_CNAME_LEN, 0) != Some([66, 66])
  {
    SameHash();
    hide DictHash, Expand, NameAt, EncodeName, EncodeLoop, Cursor, Fits, FirstHitAgrees;
    var a, b := [[65, 97]], [[66, 66]];
    var m := seq(512, _ => Free);
    TwoCharacters(c, 65, 97);
    var first := EncodeName(c, [65, 97]);
    OneLabelClear(c, [], a);
    var m1, reg1 := EncodeSpells(c, m, [], a);
    OnlyEntry(first.c, m1, reg1, a);
    ShortFits(a);
    PointerCall(first.c, m1, reg1, b);
    RoundTripIff(first.c, m1, reg1, b);
    NoAgreement(first.c.dict, reg1, b);
  }

  /** A name of one label has no other suffix to hit. */
  lemma OneLabelClear(c: Ctx, reg: seq<Name>, n: Name)
    requires |n| == 1 && |reg| == |c.dict|
    ensures Clear(c, reg, n)
  {
    hide Hash, SparesItself;
    DistinctSpares(c.(ptr := c.ptr + 1), reg, n);
  }

  lemma OnlyEntry(c: Ctx, m: seq<Kind>, reg: seq<Name>, n: Name)
    requires Valid(c, m, reg) && |c.dict| == 1 && |n| == 1 && Own(c.dict[0..], reg[0..], n)
    ensures reg == [n]
  {
    hide Hash, NameAt;
    assert c.dict[0..] == c.dict && reg[0..] == reg;
    assert IsSuffix(reg[0], n);
  }

  lemma ShortFits(n: Name)
    requires |n| == 1 && |n[0]| == 2
    ensures Fits(n)
  {
  }

  lemma NoAgreement(dict: seq<DictItem>, reg: seq<Name>, n: Name)
    requires |dict| == |reg| == 1 && n != [] && dict[0].hash == Hash(n) && reg[0] != n && Usable(reg[0])
    ensures !FirstHitAgrees(dict, reg, n)
  {
    hide Hash, Fits;
  }

  lemma SameHash()
    ensures DictHash([65, 97]) == DictHash([66, 66]) == 2112
  {
    assert [65, 97][..1] == [65] && [66, 66][..1] == [66];
    assert DictHash([65]) == 65 && DictHash([66]) == 66;
  }

  /** A name whose hash is in the dictionary takes two bytes when there is room. */
  lemma PointerCall(c: Ctx, m: seq<Kind>, reg: seq<Name>, n: Name)
    requires Valid(c, m, reg) && WellFormed(n) && n != [] && Left(c) > 2
    requires var i := FindHash(c.dict, Hash(n)); i < |c.dict| && Usable(reg[i])
    ensures EncodeName(c, Join(n)).ret == 2
  {
    hide DictHash, Hash, Expand, NameAt, Join, Fits;
    assert IsLabel(n[0]);
    JoinNonEmpty(n);
    assert c.dict[..|reg|] == c.dict;
    LookupFinds(c.(ptr := c.ptr + 1), m, reg, n);
  }
}
