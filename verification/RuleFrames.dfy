/**
 * Value-level frames for the domain rule store: what lookups see, and what one operation leaves alone.
 */
module RuleFrames {
  import opened Bytes
  import opened Sets
  import opened NameDecode
  import opened RuleCounts
  import opened RuleSpec
  import opened RuleSteps

  const POOL_PROBES: nat := 8

  /** C's division, truncating toward zero, by 2. */
  function Half(x: int): int {
    if x >= 0 then x / 2 else -(-x / 2)
  }

  /** _get_required_capacity on uint8_t values; 0 says the type is invalid. */
  function RequiredCapacity(t: int, current: nat): nat {
    if t >= RULE_MAX || t < 0 then 0
    else if current == 0 then t + 1
    else
      var grown := (Half(t + 1 - current + 1) * 2 + current) % 256;
      if grown > RULE_MAX then RULE_MAX else grown
  }

  /** A growing leaf gets room for the type, at most one slot more than that, and within the bound. */
  lemma CapacityFits(t: int, current: nat)
    requires 0 <= t < RULE_MAX && current <= t
    ensures var c := RequiredCapacity(t, current); t < c <= RULE_MAX && c > current && c <= t + 2
  {
  }

  // ---- What lookups see ----

  ghost function TreeView(slots: map<Slot, LeafId>, v: map<LeafId, LeafVal>): View {
    map x | x in slots && x.Tree? && slots[x] in v :: v[slots[x]].entries
  }

  lemma TreeViewSet(slots: map<Slot, LeafId>, v: map<LeafId, LeafVal>, slots': map<Slot, LeafId>, v': map<LeafId, LeafVal>, x: Slot, e: map<int, Entry>)
    requires x.Tree? && x in slots' && slots'[x] in v' && v'[slots'[x]].entries == e
    requires forall y :: y in slots && y.Tree? ==> slots[y] in v
    requires forall y: Slot :: y.Tree? && y != x ==> (y in slots' <==> y in slots)
    requires forall y :: y in slots && y.Tree? && y != x ==> slots'[y] == slots[y] && slots[y] in v' && v'[slots[y]] == v[slots[y]]
    ensures TreeView(slots', v') == TreeView(slots, v)[x := e]
  {
  }

  // ---- The pool's hash ----

  /** The bucket tried at probe i. */
  function Bucket(e: Entry, i: nat): (b: nat)
    requires e.payload.Flags? && i < POOL_PROBES
    ensures b < POOL_SIZE
  {
    var h0 := (e.payload.flags * 2654435761) ^ (e.payload.isSet * 2246822519)
              ^ ((if e.sub then 1 else 0) * 3266489917) ^ (if e.root then 1 else 0);
    var h1 := h0 ^ (h0 >> 16);
    var h := h1 ^ (h1 >> 8);
    ((h + (i as bv32)) & 1023) as nat
  }

  predicate Live(leaves: map<LeafId, Leaf>) {
    forall l :: l in leaves ==> leaves[l].refcnt > 0
  }

  /** Ids are fresh, and a leaf is freed at most once: exactly when it is gone. */
  ghost predicate Ids(leaves: set<LeafId>, rules: set<RuleId>, nextLeaf: nat, nextRule: nat, freed: multiset<LeafId>) {
    && (forall l :: l in leaves ==> l < nextLeaf)
    && (forall r :: r in rules ==> r < nextRule)
    && (forall l: LeafId :: freed[l] == if l < nextLeaf && l !in leaves then 1 else 0)
  }

  lemma IdsNext(leaves: set<LeafId>, rules: set<RuleId>, nextLeaf: nat, nextRule: nat, freed: multiset<LeafId>)
    requires Ids(leaves, rules, nextLeaf, nextRule, freed)
    ensures nextLeaf !in leaves && nextRule !in rules
    ensures Ids(leaves + {nextLeaf}, rules, nextLeaf + 1, nextRule, freed)
    ensures Ids(leaves, rules + {nextRule}, nextLeaf, nextRule + 1, freed)
  {
  }

  lemma IdsLess(leaves: set<LeafId>, rules: set<RuleId>, nextLeaf: nat, nextRule: nat, freed: multiset<LeafId>, l: LeafId, r: RuleId)
    requires Ids(leaves, rules, nextLeaf, nextRule, freed)
    ensures Ids(leaves, rules - {r}, nextLeaf, nextRule, freed)
    ensures l in leaves ==> Ids(leaves - {l}, rules, nextLeaf, nextRule, freed + multiset{l})
  {
  }

  function Upto(e: map<int, Entry>, i: int): map<int, Entry> {
    map t | t in e && t < i :: e[t]
  }

  /** s is s0 with the first i rules of leaf orig also in leaf l. */
  ghost predicate Copied(s0: State, s: State, orig: LeafId, l: LeafId, i: nat) {
    CopiedFrame(s0, s, orig, l, i) && CopiedView(s0, s, orig, l, i)
  }

  ghost predicate CopiedFrame(s0: State, s: State, orig: LeafId, l: LeafId, i: nat) {
    && orig in s0.leaves && l in s0.leaves && i <= |s0.leaves[orig].rules| <= |s0.leaves[l].rules|
    && s.slots == s0.slots && s.temp == s0.temp && s.handles == s0.handles && s.leaves.Keys == s0.leaves.Keys
    && (forall x :: x in s.leaves && x != l ==> s.leaves[x] == s0.leaves[x])
    && s.leaves[l].refcnt == s0.leaves[l].refcnt && |s.leaves[l].rules| == |s0.leaves[l].rules|
    && (forall t :: 0 <= t < |s.leaves[l].rules| ==> s.leaves[l].rules[t] == if t < i then s0.leaves[orig].rules[t] else None)
    && s.rules.Keys == s0.rules.Keys && forall r :: r in s.rules ==> s.rules[r].entry == s0.rules[r].entry
  }

  ghost predicate CopiedView(s0: State, s: State, orig: LeafId, l: LeafId, i: nat)
    requires orig in s0.leaves && l in s0.leaves
  {
    V(s) == V(s0)[l := LeafVal(|s0.leaves[l].rules|, Upto(Val(s0.leaves[orig], s0.rules).entries, i))]
  }

  lemma CopiedNone(s: State, orig: LeafId, l: LeafId)
    requires orig in s.leaves && l in s.leaves && l != orig && NoRules(s.leaves[l].rules) && |s.leaves[orig].rules| <= |s.leaves[l].rules|
    ensures Copied(s, s, orig, l, 0)
  {
    hide Views, Upto, Val;
    EntriesBelow(s.leaves[orig], s.rules);
    EmptyVal(s.leaves[l], s.rules);
    ViewsAt(s.leaves, s.rules, l);
  }

  lemma EmptyVal(lf: Leaf, rules: map<RuleId, Rule>)
    requires NoRules(lf.rules)
    ensures Val(lf, rules) == LeafVal(|lf.rules|, map[])
  {
    assert Val(lf, rules).entries == map[];
  }

  lemma EntriesBelow(lf: Leaf, rules: map<RuleId, Rule>)
    ensures Upto(Val(lf, rules).entries, |lf.rules|) == Val(lf, rules).entries && Upto(Val(lf, rules).entries, 0) == map[]
  {
  }

  lemma CopiedStep(s0: State, s: State, orig: LeafId, l: LeafId, i: nat)
    requires Counted(s) && Copied(s0, s, orig, l, i) && l != orig && i < |s0.leaves[orig].rules|
    ensures s.leaves[orig] == s0.leaves[orig] && |s.leaves[l].rules| >= |s.leaves[orig].rules|
    ensures s.leaves[orig].rules[i].None? ==> Copied(s0, s, orig, l, i + 1)
    ensures s.leaves[orig].rules[i].Some? ==>
              var r := s.leaves[orig].rules[i].value;
              && Fits(s.rules, r, i) && s.leaves[l].rules[i] == None
              && Fits(GetRule(s, r).rules, r, i) && Copied(s0, StoreRule(GetRule(s, r), l, i, r), orig, l, i + 1)
  {
    hide Views, Counted, Upto, Val, CopiedView, CopiedFrame, Fits, StoreRule, GetRule;
    FrameStep(s0, s, orig, l, i);
    var o := s.leaves[orig].rules[i];
    if o.Some? {
      ViewStep(s0, s, orig, l, i);
    } else {
      UptoNext(s0.leaves[orig], s0.rules, i);
      SameView(s0, s, orig, l, i);
    }
  }

  lemma SameView(s0: State, s: State, orig: LeafId, l: LeafId, i: nat)
    requires orig in s0.leaves && l in s0.leaves && CopiedView(s0, s, orig, l, i)
    requires Upto(Val(s0.leaves[orig], s0.rules).entries, i + 1) == Upto(Val(s0.leaves[orig], s0.rules).entries, i)
    ensures CopiedView(s0, s, orig, l, i + 1)
  {
  }

  lemma FrameStep(s0: State, s: State, orig: LeafId, l: LeafId, i: nat)
    requires Counted(s) && CopiedFrame(s0, s, orig, l, i) && l != orig && i < |s0.leaves[orig].rules|
    ensures orig in s.leaves && l in s.leaves && s.leaves[orig] == s0.leaves[orig] && |s.leaves[l].rules| >= |s.leaves[orig].rules|
    ensures orig in s0.leaves && l in s0.leaves && s.leaves[l].rules[i] == None
    ensures s.leaves[orig].rules[i].None? ==> CopiedFrame(s0, s, orig, l, i + 1)
    ensures s.leaves[orig].rules[i].Some? ==>
              var r := s.leaves[orig].rules[i].value;
              && Fits(s.rules, r, i) && Fits(GetRule(s, r).rules, r, i) && CopiedFrame(s0, StoreRule(GetRule(s, r), l, i, r), orig, l, i + 1)
  {
    hide LeavesCounted, RulesCounted, LeavesFit;
    var o := s.leaves[orig].rules[i];
    if o.Some? {
      RuleExists(s.leaves, s.rules, orig, i);
      var s2 := StoreRule(GetRule(s, o.value), l, i, o.value);
      assert s2.handles == s.handles;
      assert s2.rules.Keys == s0.rules.Keys;
    }
  }

  lemma ViewStep(s0: State, s: State, orig: LeafId, l: LeafId, i: nat)
    requires Counted(s) && CopiedFrame(s0, s, orig, l, i) && l != orig && i < |s0.leaves[orig].rules| && CopiedView(s0, s, orig, l, i)
    requires orig in s.leaves && l in s.leaves && s.leaves[orig] == s0.leaves[orig] && i < |s.leaves[l].rules| && s.leaves[l].rules[i] == None
    requires s.leaves[orig].rules[i].Some? && Fits(s.rules, s.leaves[orig].rules[i].value, i)
    requires Fits(GetRule(s, s.leaves[orig].rules[i].value).rules, s.leaves[orig].rules[i].value, i)
    ensures CopiedView(s0, StoreRule(GetRule(s, s.leaves[orig].rules[i].value), l, i, s.leaves[orig].rules[i].value), orig, l, i + 1)
  {
    hide Views, Counted, Upto, Val, Fits;
    var r := s.leaves[orig].rules[i].value;
    FitsIn(s.rules, r, i);
    UptoNext(s0.leaves[orig], s0.rules, i);
    var s1 := GetRule(s, r);
    GetRuleKeeps(s, r);
    StoreRuleKeeps(s1, l, i, r);
    assert s1.rules[r].entry == s0.rules[r].entry;
  }

  lemma ViewsAt(leaves: map<LeafId, Leaf>, rules: map<RuleId, Rule>, l: LeafId)
    requires l in leaves
    ensures l in Views(leaves, rules) && Views(leaves, rules)[l] == Val(leaves[l], rules)
  {
  }

  lemma UptoNext(lf: Leaf, rules: map<RuleId, Rule>, i: nat)
    requires i < |lf.rules|
    ensures var e := Val(lf, rules).entries;
            Upto(e, i + 1) == if lf.rules[i].Some? && lf.rules[i].value in rules then Upto(e, i)[i := rules[lf.rules[i].value].entry]
                              else Upto(e, i)
  {
  }

  /** l is a leaf nobody else sees, with room for type t and the rules of orig. */
  ghost predicate Private(s: State, s': State, orig: Option<LeafId>, l: LeafId, t: int) {
    && l in s'.leaves && s'.leaves[l].refcnt == 1 && 0 <= t < |s'.leaves[l].rules|
    && (if orig == Some(l) then s' == s else Detached(s, s', orig, l, t))
  }

  ghost predicate Detached(s: State, s': State, orig: Option<LeafId>, l: LeafId, t: int) {
    && l !in s.leaves && l in s'.leaves && s'.slots == s.slots && s'.temp == s.temp + multiset{l} && s'.handles == s.handles
    && s'.leaves.Keys == s.leaves.Keys + {l} && (forall x :: x in s.leaves ==> s'.leaves[x] == s.leaves[x])
    && (orig.Some? ==> orig.value in V(s) && SameRules(s, s', orig.value, l))
    && V(s') == V(s)[l := LeafVal(|s'.leaves[l].rules|, if orig.None? then map[] else V(s)[orig.value].entries)]
    && s'.rules.Keys == s.rules.Keys && forall r :: r in s.rules ==> s'.rules[r].entry == s.rules[r].entry
  }

  /** Leaf l of s' holds the very rules of leaf orig of s. */
  ghost predicate SameRules(s: State, s': State, orig: LeafId, l: LeafId) {
    && orig in s.leaves && l in s'.leaves && |s.leaves[orig].rules| <= |s'.leaves[l].rules|
    && forall t :: 0 <= t < |s'.leaves[l].rules| ==> s'.leaves[l].rules[t] == if t < |s.leaves[orig].rules| then s.leaves[orig].rules[t] else None
  }

  lemma PrivateNew(s: State, l: LeafId, t: int)
    requires Counted(s) && l !in s.leaves && 0 <= t < RULE_MAX
    ensures var s' := Alloc(s, l, t + 1); Private(s, s', None, l, t) && (Live(s.leaves) ==> Live(s'.leaves))
  {
    hide Counted, Views;
    AllocKeeps(s, l, t + 1);
  }

  lemma LiveFit(s: State, l: LeafId)
    requires Counted(s) && l in s.leaves
    ensures 1 <= |s.leaves[l].rules| <= RULE_MAX
    ensures forall t :: |s.leaves[l].rules| <= t < RULE_MAX ==> t < RequiredCapacity(t, |s.leaves[l].rules|) <= RULE_MAX
  {
    hide LeavesCounted, RulesCounted, Pooled, RequiredCapacity;
    assert LeafFits(s.rules, s.leaves[l]);
    forall t | |s.leaves[l].rules| <= t < RULE_MAX ensures t < RequiredCapacity(t, |s.leaves[l].rules|) <= RULE_MAX {
      CapacityFits(t, |s.leaves[l].rules|);
    }
  }

  lemma PrivateCopy(s: State, s1: State, s2: State, orig: LeafId, l: LeafId, t: int, cap: nat)
    requires Counted(s) && orig in s.leaves && l !in s.leaves && 0 <= t < cap <= RULE_MAX && s1 == Alloc(s, l, cap)
    requires |s.leaves[orig].rules| <= cap && Copied(s1, s2, orig, l, |s.leaves[orig].rules|)
    ensures Private(s, s2, Some(orig), l, t) && (Live(s.leaves) ==> Live(s2.leaves))
  {
    hide Counted, Views, Upto, Val;
    AllocKeeps(s, l, cap);
    ViewsAt(s.leaves, s.rules, orig);
    EntriesBelow(s.leaves[orig], s.rules);
    assert s1.leaves[orig] == s.leaves[orig];
    assert V(s2) == V(s)[l := LeafVal(cap, V(s)[orig].entries)];
  }

  /** s' is s with slots of leaf l emptied and their rules released. */
  ghost predicate OnlyEmptied(s: State, s': State, l: LeafId) {
    && s'.slots == s.slots && s'.temp == s.temp && s'.handles == s.handles && s'.leaves.Keys == s.leaves.Keys && l in s.leaves
    && |s'.leaves[l].rules| == |s.leaves[l].rules| && s'.leaves[l].refcnt == s.leaves[l].refcnt
    && (forall x :: x in s.leaves && x != l ==> s'.leaves[x] == s.leaves[x])
    && V(s') - {l} == V(s) - {l}
    && (forall r :: r in s'.rules ==> r in s.rules && s'.rules[r].entry == s.rules[r].entry)
  }

  lemma StillThere(s: State, s': State, l: LeafId)
    requires OnlyEmptied(s, s', l)
    ensures l in s'.leaves
  {
  }

  lemma OnlyEmptiedSelf(s: State, l: LeafId)
    requires l in s.leaves
    ensures OnlyEmptied(s, s, l)
  {
  }

  lemma OnlyEmptiedStep(s0: State, s: State, l: LeafId, t: int)
    requires OnlyEmptied(s0, s, l) && Counted(s) && l in s.leaves && 0 <= t < |s.leaves[l].rules| && s.leaves[l].rules[t].Some?
    requires forall x :: x in s.slots ==> s.slots[x] != l
    ensures var r := s.leaves[l].rules[t].value; var s1 := TakeRule(s, l, t);
            r in s1.rules && s1.rules[r].refcnt > 0 && OnlyEmptied(s0, PutRule(s1, r), l)
  {
    hide Counted, Views;
    TakeRuleKeeps(s, l, t);
    var r, s1 := s.leaves[l].rules[t].value, TakeRule(s, l, t);
    PutRuleKeeps(s1, r);
    assert V(PutRule(s1, r)) - {l} == V(s) - {l};
    assert PutRule(s1, r).handles == s.handles;
  }

  /** s' is s after one reference to l was given up: l is gone exactly when it was the last. */
  ghost predicate Released(s: State, s': State, l: LeafId) {
    && s'.slots == s.slots && s'.temp == s.temp - multiset{l} && s'.handles == s.handles && l in s.leaves
    && s'.leaves.Keys == (if s.leaves[l].refcnt == 1 then s.leaves.Keys - {l} else s.leaves.Keys)
    && V(s') == (if s.leaves[l].refcnt == 1 then V(s) - {l} else V(s))
    && (forall x :: x in s.leaves && x != l ==> s'.leaves[x] == s.leaves[x])
    && (forall r :: r in s'.rules ==> r in s.rules && s'.rules[r].entry == s.rules[r].entry)
  }

  lemma ReleasedOne(s: State, l: LeafId)
    requires Counted(s) && l in s.temp && l in s.leaves && s.leaves[l].refcnt > 1
    ensures Released(s, DecLeaf(s, l), l) && (Live(s.leaves) ==> Live(DecLeaf(s, l).leaves))
  {
    hide Counted, Views;
    DecLeafKeeps(s, l);
  }

  lemma ReleasedLast(s: State, s2: State, l: LeafId)
    requires Counted(s) && l in s.temp && l in s.leaves && s.leaves[l].refcnt == 1
    requires Counted(s2) && OnlyEmptied(DecLeaf(s, l), s2, l) && NoRules(s2.leaves[l].rules)
    ensures Counted(DelLeaf(s2, l)) && Released(s, DelLeaf(s2, l), l) && (Live(s.leaves) ==> Live(DelLeaf(s2, l).leaves))
  {
    hide Counted, Views;
    DecLeafKeeps(s, l);
    DelLeafKeeps(s2, l);
  }

  /** A leaf nobody counts is in no slot, so not in the pool. */
  lemma NotPooled(s: State, l: LeafId)
    requires Counted(s) && l in s.leaves && s.leaves[l].refcnt == 0
    ensures forall x :: x in s.slots ==> s.slots[x] != l
  {
    NoHolder(s.slots, l);
  }

  // ---- One operation ----

  /** s' is s where leaf l says E; every other leaf, and every slot, is as before. */
  ghost predicate Upd(s: State, s': State, l: LeafId, E: map<int, Entry>) {
    && UpdFrame(s, s', l) && l in V(s) && V(s') == V(s)[l := V(s)[l].(entries := E)] && HandlesKept(s, s')
  }

  ghost predicate UpdFrame(s: State, s': State, l: LeafId) {
    && s'.slots == s.slots && s'.temp == s.temp && s'.leaves.Keys == s.leaves.Keys && l in s.leaves
    && s'.leaves[l].refcnt == s.leaves[l].refcnt && |s'.leaves[l].rules| == |s.leaves[l].rules|
    && forall x :: x in s.leaves && x != l ==> s'.leaves[x] == s.leaves[x]
  }

  /** Rules that callers hold stay, with their payload; only marks may change. */
  ghost predicate HandlesKept(s: State, s': State) {
    forall r :: r in s.handles && r in s'.handles ==>
      r in s.rules && r in s'.rules && s'.rules[r].entry.payload == s.rules[r].entry.payload
  }

  lemma UpdTrans(s: State, s1: State, s2: State, l: LeafId, E1: map<int, Entry>, E2: map<int, Entry>)
    requires Upd(s, s1, l, E1) && Upd(s1, s2, l, E2) && s.handles <= s1.handles
    ensures Upd(s, s2, l, E2)
  {
    hide V;
    HandlesKeptTrans(s, s1, s2);
  }

  lemma UpdSelf(s: State, l: LeafId)
    requires Counted(s) && l in s.leaves
    ensures l in V(s) && Upd(s, s, l, V(s)[l].entries)
  {
    hide Counted, Views, HandlesKept;
    ViewsAt(s.leaves, s.rules, l);
    HandlesKeptSelf(s);
    assert V(s)[l := V(s)[l]] == V(s);
  }

  lemma UpdLive(s: State, s': State, l: LeafId, E: map<int, Entry>)
    requires Upd(s, s', l, E)
    ensures l in s.leaves && l in s'.leaves && s'.slots == s.slots && s'.temp == s.temp && (Live(s.leaves) ==> Live(s'.leaves))
    ensures s'.leaves[l].refcnt == s.leaves[l].refcnt && |s'.leaves[l].rules| == |s.leaves[l].rules|
    ensures l in V(s) && l in V(s') && V(s')[l].entries == E
    ensures forall z :: z in V(s) && z != l ==> z in V(s') && V(s')[z] == V(s)[z]
  {
    hide V;
  }

  lemma UpdNew(s: State, l: LeafId, r: RuleId, e: Entry)
    requires Counted(s) && l in s.leaves && r !in s.rules
    ensures l in V(s) && Upd(s, NewRule(s, r, e), l, V(s)[l].entries)
  {
    hide LeavesCounted, RulesCounted, LeavesFit, Views;
    NewRuleKeeps(s, r, e);
    ViewsAt(s.leaves, s.rules, l);
  }

  lemma UpdGet(s: State, l: LeafId, r: RuleId)
    requires Counted(s) && l in s.leaves && r in s.rules
    ensures l in V(s) && Upd(s, GetRule(s, r), l, V(s)[l].entries)
  {
    hide LeavesCounted, RulesCounted, LeavesFit, Views;
    GetRuleKeeps(s, r);
    ViewsAt(s.leaves, s.rules, l);
  }

  lemma UpdPut(s: State, l: LeafId, r: RuleId)
    requires Counted(s) && l in s.leaves && r in s.handles && r in s.rules && s.rules[r].refcnt > 0
    ensures l in V(s) && Upd(s, PutRule(s, r), l, V(s)[l].entries)
  {
    hide LeavesCounted, RulesCounted, LeavesFit, Views;
    PutRuleKeeps(s, r);
    ViewsAt(s.leaves, s.rules, l);
    PutKeepsHandles(s, r);
  }

  lemma PutKeepsHandles(s: State, r: RuleId)
    requires Counted(s) && r in s.handles && r in s.rules && s.rules[r].refcnt > 0
    ensures HandlesKept(s, PutRule(s, r))
  {
    hide LeavesCounted, RulesCounted, LeavesFit, Pooled, SlotsClosed, TempClosed;
    PutRuleKeeps(s, r);
  }

  lemma UpdStore(s: State, l: LeafId, t: int, r: RuleId)
    requires Counted(s) && l in s.leaves && 0 <= t < |s.leaves[l].rules| && s.leaves[l].rules[t] == None && r in s.handles && Fits(s.rules, r, t)
    ensures l in V(s) && Upd(s, StoreRule(s, l, t, r), l, V(s)[l].entries[t := s.rules[r].entry])
  {
    hide LeavesCounted, RulesCounted, LeavesFit, Views;
    StoreRuleKeeps(s, l, t, r);
    ViewsAt(s.leaves, s.rules, l);
  }

  lemma UpdTake(s: State, l: LeafId, t: int)
    requires Counted(s) && l in s.leaves && 0 <= t < |s.leaves[l].rules| && s.leaves[l].rules[t].Some?
    requires forall x :: x in s.slots && x.Pool? ==> s.slots[x] != l
    ensures l in V(s) && Upd(s, TakeRule(s, l, t), l, V(s)[l].entries - {t})
  {
    hide LeavesCounted, RulesCounted, LeavesFit, Views;
    TakeRuleKeeps(s, l, t);
    ViewsAt(s.leaves, s.rules, l);
  }

  lemma UpdEdit(s: State, l: LeafId, t: int, r: RuleId, e: Entry)
    requires Counted(s) && l in s.leaves && 0 <= t < |s.leaves[l].rules| && s.leaves[l].rules[t] == Some(r)
    requires r in s.rules && s.rules[r].refcnt == 1 && e.payload.Flags? == s.rules[r].entry.payload.Flags?
    ensures l in V(s) && Upd(s, EditRule(s, r, e), l, V(s)[l].entries[t := e]) && Counted(EditRule(s, r, e))
  {
    hide LeavesCounted, LeavesFit, Views;
    EditUsedKeeps(s, l, t, r, e);
    ViewsAt(s.leaves, s.rules, l);
    IsUser(s.leaves, l, t, r);
  }

  lemma UpdMarks(s: State, l: LeafId, r: RuleId, sub: bool, root: bool)
    requires Counted(s) && l in s.leaves && r in s.handles && r in s.rules
    requires s.rules[r].refcnt == 1 || (s.rules[r].entry.sub == sub && s.rules[r].entry.root == root)
    ensures var s' := EditRule(s, r, s.rules[r].entry.(sub := sub, root := root));
            l in V(s) && Upd(s, s', l, V(s)[l].entries) && Counted(s')
  {
    hide LeavesCounted, RulesCounted, LeavesFit, Views;
    EditHeldKeeps(s, r, s.rules[r].entry.(sub := sub, root := root));
    ViewsAt(s.leaves, s.rules, l);
  }

  lemma EntryOf(s: State, l: LeafId, t: int)
    requires Counted(s) && l in s.leaves && 0 <= t < |s.leaves[l].rules|
    ensures l in V(s) && (t in V(s)[l].entries <==> s.leaves[l].rules[t].Some?)
    ensures s.leaves[l].rules[t].Some? ==>
              var r := s.leaves[l].rules[t].value; Fits(s.rules, r, t) && r in s.rules && V(s)[l].entries[t] == s.rules[r].entry
  {
    hide LeavesCounted, RulesCounted, Pooled;
    if s.leaves[l].rules[t].Some? {
      RuleExists(s.leaves, s.rules, l, t);
    }
  }

  /** Leaves only went away. */
  predicate Shrinks(v: map<LeafId, LeafVal>, v': map<LeafId, LeafVal>) {
    forall z :: z in v' ==> z in v && v'[z] == v[z]
  }

  lemma ReleasedShrinks(s: State, s': State, l: LeafId)
    requires Released(s, s', l)
    ensures Shrinks(V(s), V(s')) && s'.slots == s.slots && s'.temp == s.temp - multiset{l} && s'.handles == s.handles
    ensures HandlesClosed(s'.handles, s'.rules) ==> HandlesKept(s, s')
  {
    hide Views;
  }

  lemma HandlesKeptTrans(s: State, s1: State, s2: State)
    requires HandlesKept(s, s1) && HandlesKept(s1, s2) && s.handles <= s1.handles
    ensures HandlesKept(s, s2)
  {
  }

  lemma HandlesKeptSelf(s: State)
    requires Counted(s)
    ensures HandlesKept(s, s)
  {
  }

  /** The pool is as before, and so are the values in it. */
  ghost predicate PoolKept(s: State, s': State) {
    forall y :: y in s.slots && y.Pool? ==>
      y in s'.slots && s'.slots[y] == s.slots[y] && s.slots[y] in V(s) && s.slots[y] in V(s') && V(s')[s.slots[y]] == V(s)[s.slots[y]]
  }

  /** Only slot x, of a tree, may hold another leaf; the pool may have got one more. */
  predicate OnlySlot(slots: map<Slot, LeafId>, slots': map<Slot, LeafId>, x: Slot) {
    && (forall y :: y in slots && y != x ==> y in slots' && slots'[y] == slots[y])
    && (forall y :: y in slots' && y.Tree? && y != x ==> y in slots)
  }

  /** l is out of sight of every slot but x. */
  ghost predicate Unseen(s: State, x: Slot, l: LeafId) {
    forall y :: y in s.slots && s.slots[y] == l ==> y == x
  }

  /** Nobody but x sees a change of l, or there is none. */
  ghost predicate Safe(s: State, x: Slot, l: LeafId, v: map<LeafId, LeafVal>) {
    Unseen(s, x, l) || (l in V(s) && l in v && v[l] == V(s)[l])
  }

  lemma SlotsInViews(s: State)
    requires Counted(s)
    ensures forall y :: y in s.slots ==> s.slots[y] in V(s)
  {
    hide LeavesCounted, RulesCounted, LeavesFit;
  }

  /**
   * Copy on write: when the leaf l that was changed is out of sight of every other slot, the lookups
   * change at x only, and the pool not at all.
   */
  lemma ViewSet(s0: State, v: map<LeafId, LeafVal>, s': State, x: Slot, l: LeafId)
    requires Counted(s0) && Counted(s') && x.Tree? && Safe(s0, x, l, v)
    requires forall z :: z in V(s0) && z != l ==> z in v && v[z] == V(s0)[z]
    requires Shrinks(v, V(s')) && OnlySlot(s0.slots, s'.slots, x)
    requires l in v && x in s'.slots && s'.slots[x] in v && v[s'.slots[x]] == v[l]
    ensures TreeView(s'.slots, V(s')) == TreeView(s0.slots, V(s0))[x := v[l].entries] && PoolKept(s0, s')
  {
    hide Counted, V, TreeView;
    SlotsInViews(s0);
    SlotsInViews(s');
    TreeViewSet(s0.slots, V(s0), s'.slots, V(s'), x, v[l].entries);
  }

  /** What holding the only reference means. */
  lemma PrivateUnseen(s: State, s1: State, x: Slot, orig: Option<LeafId>, l: LeafId, t: int)
    requires Counted(s) && Private(s, s1, orig, l, t) && x.Tree?
    requires orig == if x in s.slots then Some(s.slots[x]) else None
    ensures Unseen(s, x, l) && Unseen(s1, x, l) && s1.slots == s.slots && l in V(s1) && s1.handles == s.handles
    ensures forall z :: z in V(s) && z != l ==> z in V(s1) && V(s1)[z] == V(s)[z]
    ensures V(s1)[l].entries == EntriesAt(TreeView(s.slots, V(s)), x)
    ensures s1.temp == if orig == Some(l) then s.temp else s.temp + multiset{l}
    ensures HandlesKept(s, s1)
  {
    hide Counted, V, HandlesKept;
    SlotLeaves(s);
    SlotsInViews(s);
    if orig == Some(l) {
      HandlesKeptSelf(s);
      HolderCounts(s, x, l);
      SoleHolder(s.slots, x, l);
    } else {
      DetachedHandles(s, s1, orig, l, t);
    }
  }

  lemma DetachedHandles(s: State, s1: State, orig: Option<LeafId>, l: LeafId, t: int)
    requires Counted(s) && Detached(s, s1, orig, l, t)
    ensures HandlesKept(s, s1)
  {
    hide LeavesCounted, RulesCounted, LeavesFit, Pooled, V;
  }

  lemma HolderCounts(s: State, x: Slot, l: LeafId)
    requires Counted(s) && x in s.slots && s.slots[x] == l && l in s.leaves && s.leaves[l].refcnt == 1
    ensures |Holders(s.slots, l)| == 1 && s.temp[l] == 0
  {
    hide RulesCounted, LeavesFit, Pooled, HandlesClosed;
    assert x in Holders(s.slots, l);
    SubsetSize({x}, Holders(s.slots, l));
  }

  /** A fresh copy made, the old rule released, the copy put in. */
  lemma ReplacedEntry(s0: State, s1: State, s2: State, s3: State, l: LeafId, E: map<int, Entry>, e: Entry)
    requires FLAGS in E && E[FLAGS] == e
    requires Upd(s0, s1, l, E) && Upd(s1, s2, l, E - {FLAGS}) && Upd(s2, s3, l, (E - {FLAGS})[FLAGS := e])
    requires s0.handles <= s1.handles && s0.handles <= s2.handles
    ensures Upd(s0, s3, l, E[FLAGS := e])
  {
    hide Upd;
    assert (E - {FLAGS})[FLAGS := e] == E[FLAGS := e];
    UpdTrans(s0, s1, s2, l, E, E - {FLAGS});
    UpdTrans(s0, s2, s3, l, E - {FLAGS}, E[FLAGS := e]);
  }

  lemma RuleAlive(s: State, r: RuleId)
    requires Counted(s) && r in s.rules
    ensures s.rules[r].refcnt > 0
  {
    hide LeavesCounted, LeavesFit, Pooled;
  }

  /** Slot 0 of leaf l holds r, and nothing else does. */
  ghost predicate OwnsFlags(s: State, l: LeafId, r: RuleId) {
    && l in s.leaves && 0 < |s.leaves[l].rules| && s.leaves[l].rules[FLAGS] == Some(r)
    && r in s.rules && s.rules[r].refcnt == 1 && s.rules[r].entry.payload.Flags?
  }

  lemma SameKeys(s: State, r: RuleId, e: Entry)
    requires r in s.rules
    ensures EditRule(s, r, e).rules.Keys == s.rules.Keys
  {
  }

  lemma HandleAlive(s: State, r: RuleId)
    requires Counted(s) && r in s.handles
    ensures r in s.rules && s.rules[r].refcnt > 0
  {
    hide LeavesCounted, LeavesFit, Pooled;
  }

  lemma TempExists(s: State, l: LeafId)
    requires Counted(s) && l in s.temp
    ensures l in s.leaves
  {
    hide LeavesCounted, RulesCounted, LeavesFit, Pooled;
  }

  lemma CountedHandles(s: State)
    requires Counted(s)
    ensures HandlesClosed(s.handles, s.rules)
  {
    hide LeavesCounted, RulesCounted, LeavesFit, Pooled;
  }

  lemma PoolLeaf(s: State, x: Slot)
    requires Counted(s) && x in s.slots && x.Pool?
    ensures s.slots[x] in s.leaves && FlagsLeaf(s.leaves[s.slots[x]])
    ensures s.leaves[s.slots[x]].rules[FLAGS].value in s.rules && s.rules[s.leaves[s.slots[x]].rules[FLAGS].value].entry.payload.Flags?
  {
    hide LeavesCounted, RulesCounted, LeavesFit;
    RuleExists(s.leaves, s.rules, s.slots[x], FLAGS);
  }

  /** m says what l says; it is l, perhaps now in the pool, or a leaf of the pool with one more reference. */
  ghost predicate Interned(s: State, s': State, l: LeafId, m: LeafId) {
    && s'.rules == s.rules && s'.handles == s.handles && s'.leaves.Keys == s.leaves.Keys && V(s') == V(s)
    && m in V(s) && l in V(s) && V(s)[m] == V(s)[l]
    && (forall y :: y in s.slots ==> y in s'.slots && s'.slots[y] == s.slots[y])
    && (forall y :: y in s'.slots && y.Tree? ==> y in s.slots)
    && (forall z :: z in s.leaves ==> s'.leaves[z].refcnt >= s.leaves[z].refcnt)
    && s'.temp == if m == l then s.temp else s.temp + multiset{m}
  }

  /** Two leaves that hold flags only, and the same ones, say the same. */
  lemma SameFlags(s: State, l: LeafId, m: LeafId)
    requires Counted(s) && l in s.leaves && m in s.leaves && FlagsLeaf(s.leaves[l]) && FlagsLeaf(s.leaves[m])
    requires s.leaves[l].rules[FLAGS].value in s.rules && s.leaves[m].rules[FLAGS].value in s.rules
    requires s.rules[s.leaves[l].rules[FLAGS].value].entry == s.rules[s.leaves[m].rules[FLAGS].value].entry
    ensures l in V(s) && m in V(s) && V(s)[l] == V(s)[m]
  {
    hide Counted;
    assert Val(s.leaves[l], s.rules).entries == Val(s.leaves[m], s.rules).entries;
  }

  lemma InViews(s: State, l: LeafId)
    requires l in s.leaves
    ensures l in V(s)
  {
  }

  lemma ShrinksSelf(v: map<LeafId, LeafVal>)
    ensures Shrinks(v, v)
  {
  }

  lemma SlotHandles(s: State, x: Slot, l: LeafId)
    requires Counted(s)
    ensures HandlesKept(s, SetSlot(s, x, l))
  {
    hide LeavesCounted, RulesCounted, LeavesFit, Pooled;
  }

  lemma TempBack(temp: multiset<LeafId>, l: LeafId, was: Option<LeafId>)
    ensures was.Some? ==> temp - multiset{l} + multiset{was.value} - multiset{was.value} == temp - multiset{l}
    ensures temp - multiset{l} + multiset{} == temp - multiset{l}
  {
  }

  // ---- Committing a change ----

  /** What an operation leaves alone: the callers' rules, the pool and what is in it. */
  ghost predicate Elsewhere(s: State, s': State) {
    s'.handles == s.handles && HandlesKept(s, s') && PoolKept(s, s')
  }

  lemma ElsewhereSelf(s: State)
    requires Counted(s)
    ensures Elsewhere(s, s)
  {
    hide Counted, V, HandlesKept;
    HandlesKeptSelf(s);
    SlotsInViews(s);
  }

  /** Leaf l was changed to what v says, out of sight; add is the leaf to publish at x, if it is not there yet. */
  ghost predicate Changed(s0: State, s: State, x: Slot, l: LeafId, v: map<LeafId, LeafVal>, add: Option<LeafId>) {
    && Safe(s0, x, l, v) && (forall z :: z in V(s0) && z != l ==> z in v && v[z] == V(s0)[z]) && l in v
    && Shrinks(v, V(s)) && s.handles == s0.handles && HandlesKept(s0, s) && TreesKept(s0.slots, s.slots)
    && (add.Some? ==> add.value in v && v[add.value] == v[l] && s.temp == s0.temp + multiset{add.value})
    && (add.None? ==> s.temp == s0.temp && x in s.slots && s.slots[x] == l)
  }

  /** The trees are as before; the pool may have got one more leaf. */
  predicate TreesKept(slots: map<Slot, LeafId>, slots': map<Slot, LeafId>) {
    && (forall y :: y in slots ==> y in slots' && slots'[y] == slots[y])
    && (forall y :: y in slots' && y.Tree? ==> y in slots)
  }

  lemma ShrinksTrans(v: map<LeafId, LeafVal>, v1: map<LeafId, LeafVal>, v2: map<LeafId, LeafVal>)
    requires Shrinks(v, v1) && Shrinks(v1, v2)
    ensures Shrinks(v, v2)
  {
  }

  lemma SlotLeaves(s: State)
    requires Counted(s)
    ensures forall y :: y in s.slots ==> s.slots[y] in s.leaves && 0 < |s.leaves[s.slots[y]].rules|
  {
    hide LeavesCounted, RulesCounted, Pooled;
    forall y | y in s.slots ensures s.slots[y] in s.leaves && 0 < |s.leaves[s.slots[y]].rules| {
      assert LeafFits(s.rules, s.leaves[s.slots[y]]);
    }
  }

  lemma PrivateRoom(s: State, s1: State, orig: Option<LeafId>, l: LeafId, t: int)
    requires Private(s, s1, orig, l, t)
    ensures l in s1.leaves && 0 <= t < |s1.leaves[l].rules| && s1.leaves[l].refcnt == 1
  {
  }

  lemma ChangedEdit(s0: State, s1: State, s2: State, x: Slot, orig: Option<LeafId>, l: LeafId, t: int, E: map<int, Entry>)
    requires Counted(s0) && Private(s0, s1, orig, l, t) && x.Tree? && Upd(s1, s2, l, E) && s2.handles == s1.handles
    requires orig == if x in s0.slots then Some(s0.slots[x]) else None
    ensures l in V(s2) && V(s2)[l].entries == E
    ensures Changed(s0, s2, x, l, V(s2), if orig == Some(l) then None else Some(l))
  {
    hide Counted, Private, V, TreeView;
    PrivateUnseen(s0, s1, x, orig, l, t);
    UpdLive(s1, s2, l, E);
    HandlesKeptTrans(s0, s1, s2);
  }

  lemma ChangedIntern(s0: State, s2: State, s3: State, x: Slot, l: LeafId, m: LeafId, add: Option<LeafId>)
    requires Changed(s0, s2, x, l, V(s2), add) && Interned(s2, s3, l, m) && (add.Some? ==> add == Some(l)) && Counted(s2)
    ensures m == l ==> Changed(s0, s3, x, l, V(s2), add)
    ensures m != l && add.None? ==> Changed(s0, s3, x, l, V(s2), Some(m))
    ensures m != l && add.Some? ==> l in s3.temp
    ensures Live(s2.leaves) ==> Live(s3.leaves)
  {
    hide Counted, V, Safe, HandlesKept, Shrinks;
    InternedHandles(s2, s3, l, m);
    HandlesKeptTrans(s0, s2, s3);
  }

  lemma ChangedFree(s0: State, s2: State, s3: State, s4: State, x: Slot, l: LeafId, m: LeafId)
    requires Changed(s0, s2, x, l, V(s2), Some(l)) && Interned(s2, s3, l, m) && m != l && Counted(s2)
    requires Released(s3, s4, l) && HandlesClosed(s4.handles, s4.rules)
    ensures Changed(s0, s4, x, l, V(s2), Some(m))
  {
    hide Counted, V, Released, Safe, HandlesKept, Shrinks;
    InternedHandles(s2, s3, l, m);
    HandlesKeptTrans(s0, s2, s3);
    ReleasedShrinks(s3, s4, l);
    HandlesKeptTrans(s0, s3, s4);
    TempSwap(s0.temp, l, m);
  }

  lemma InternedHandles(s: State, s': State, l: LeafId, m: LeafId)
    requires Counted(s) && Interned(s, s', l, m)
    ensures HandlesKept(s, s')
  {
    hide Counted, V;
    HandlesKeptSelf(s);
  }

  lemma TempSwap(temp: multiset<LeafId>, l: LeafId, m: LeafId)
    ensures temp + multiset{l} + multiset{m} - multiset{l} == temp + multiset{m}
  {
  }

  /** The flags a tree slot shows. */
  lemma FlagsNow(s: State, x: Slot)
    requires Counted(s) && x in s.slots && x.Tree? && s.slots[x] in s.leaves && 0 < |s.leaves[s.slots[x]].rules|
    requires s.leaves[s.slots[x]].rules[FLAGS].Some?
    ensures var r := s.leaves[s.slots[x]].rules[FLAGS].value;
            && r in s.rules && s.rules[r].entry.payload.Flags? && FlagsOf(EntriesAt(TreeView(s.slots, V(s)), x)) == s.rules[r].entry.payload
            && FLAGS in EntriesAt(TreeView(s.slots, V(s)), x) && EntriesAt(TreeView(s.slots, V(s)), x)[FLAGS] == s.rules[r].entry
  {
    hide Counted, V;
    EntryOf(s, s.slots[x], FLAGS);
  }

  lemma SamePut(view: View, x: Slot, t: int, e: Entry)
    requires x in view && t in view[x] && view[x][t] == e
    ensures Put(view, x, t, e) == view
  {
    assert view[x][t := e] == view[x];
  }

  lemma FitsKept(s: State, s': State, r: RuleId, t: int)
    requires HandlesKept(s, s') && r in s.handles && r in s'.handles && Fits(s.rules, r, t)
    ensures Fits(s'.rules, r, t)
  {
  }

  lemma ViewAt(s: State, x: Slot)
    requires Counted(s) && x in s.slots && x.Tree?
    ensures s.slots[x] in V(s) && x in TreeView(s.slots, V(s)) && TreeView(s.slots, V(s))[x] == V(s)[s.slots[x]].entries
  {
    hide Counted, V;
    SlotsInViews(s);
  }

  lemma ViewNone(s: State, x: Slot)
    requires x !in s.slots
    ensures x !in TreeView(s.slots, V(s))
  {
    hide V;
  }

  /** The private copy shows what the slot showed. */
  lemma ChangedCopy(s0: State, s1: State, x: Slot, orig: Option<LeafId>, l: LeafId, t: int)
    requires Counted(s0) && Counted(s1) && Private(s0, s1, orig, l, t) && x.Tree?
    requires orig == if x in s0.slots then Some(s0.slots[x]) else None
    ensures l in V(s1) && V(s1)[l].entries == EntriesAt(TreeView(s0.slots, V(s0)), x)
    ensures Changed(s0, s1, x, l, V(s1), if orig == Some(l) then None else Some(l)) && Unseen(s0, x, l)
  {
    hide Counted, V, TreeView, Upd;
    PrivateUnseen(s0, s1, x, orig, l, t);
    PrivateRoom(s0, s1, orig, l, t);
    UpdSelf(s1, l);
    ChangedEdit(s0, s1, s1, x, orig, l, t, V(s1)[l].entries);
  }

  lemma ElsewhereTrans(s: State, s1: State, s2: State)
    requires Elsewhere(s, s1) && Elsewhere(s1, s2)
    ensures Elsewhere(s, s2)
  {
    hide V;
  }

  /** Taking a rule out of a leaf only slot x sees. */
  lemma ViewUpd(s: State, s': State, x: Slot, l: LeafId, E: map<int, Entry>)
    requires Counted(s) && Counted(s') && x.Tree? && x in s.slots && s.slots[x] == l && Unseen(s, x, l)
    requires Upd(s, s', l, E) && s'.handles == s.handles
    ensures TreeView(s'.slots, V(s')) == TreeView(s.slots, V(s))[x := E] && Elsewhere(s, s')
  {
    hide Counted, V, TreeView;
    UpdLive(s, s', l, E);
    ViewSet(s, V(s'), s', x, l);
  }

  /** A slot is gone, and with it perhaps its leaf. */
  lemma ViewDel(s: State, s': State, x: Slot)
    requires Counted(s) && Counted(s') && s'.slots == s.slots - {x} && Shrinks(V(s), V(s')) && s'.handles == s.handles && HandlesKept(s, s')
    ensures TreeView(s'.slots, V(s')) == TreeView(s.slots, V(s)) - {x}
    ensures x.Tree? ==> Elsewhere(s, s')
  {
    hide Counted, V, TreeView, HandlesKept, PoolKept;
    SlotsInViews(s);
    SlotsInViews(s');
    TreeViewDel(s.slots, V(s), s'.slots, V(s'), x);
    if x.Tree? {
      PoolStays(s, s', x);
    }
  }

  lemma PoolStays(s: State, s': State, x: Slot)
    requires x.Tree? && s'.slots == s.slots - {x} && Shrinks(V(s), V(s'))
    requires forall y :: y in s'.slots ==> s'.slots[y] in V(s')
    ensures PoolKept(s, s')
  {
    hide V;
    forall y | y in s.slots && y.Pool?
      ensures y in s'.slots && s'.slots[y] == s.slots[y] && s.slots[y] in V(s) && s.slots[y] in V(s') && V(s')[s.slots[y]] == V(s)[s.slots[y]]
    {
      assert y in s'.slots;
    }
  }

  lemma TreeViewDel(slots: map<Slot, LeafId>, v: map<LeafId, LeafVal>, slots': map<Slot, LeafId>, v': map<LeafId, LeafVal>, x: Slot)
    requires slots' == slots - {x} && (forall y :: y in slots ==> slots[y] in v) && (forall y :: y in slots' ==> slots'[y] in v') && Shrinks(v, v')
    ensures TreeView(slots', v') == TreeView(slots, v) - {x}
  {
    var a, b := TreeView(slots', v'), TreeView(slots, v) - {x};
    assert forall y :: y in a <==> y in b;
    assert forall y :: y in a ==> a[y] == b[y];
  }

  /** Without slots and references in flight nothing is left. */
  lemma NothingLeft(s: State)
    requires Counted(s) && Live(s.leaves) && s.slots == map[] && s.temp == multiset{}
    ensures s.leaves == map[]
  {
    hide RulesCounted, LeavesFit, Pooled;
    assert forall l :: l in s.leaves ==> Holders(s.slots, l) == {};
    assert s.leaves.Keys == {};
  }

  lemma SamePayload(s: State, s': State, r: RuleId)
    requires HandlesKept(s, s') && r in s.handles && r in s'.handles
    ensures r in s.rules && r in s'.rules && s'.rules[r].entry.payload == s.rules[r].entry.payload
  {
  }

  lemma NoEntry(s: State, l: LeafId, t: int)
    requires Counted(s) && l in s.leaves && 0 <= t && (t < |s.leaves[l].rules| ==> s.leaves[l].rules[t] == None)
    ensures l in V(s) && t !in V(s)[l].entries
  {
    hide Counted;
  }

  /** An entry that shows has a slot. */
  lemma RoomStays(s: State, l: LeafId, t: int)
    requires Counted(s) && l in s.leaves && l in V(s) && t in V(s)[l].entries
    ensures 0 <= t < |s.leaves[l].rules| && s.leaves[l].rules[t].Some?
  {
    hide Counted;
  }

  lemma SlotGone(s: State, x: Slot)
    requires Counted(s) && x in s.slots
    ensures HandlesKept(s, ClearSlot(s, x))
  {
    hide LeavesCounted, RulesCounted, LeavesFit, Pooled;
  }

  lemma SharedHandles(s: State, l: LeafId)
    requires Counted(s) && l in s.leaves
    ensures HandlesKept(s, IncLeaf(s, l)) && (Live(s.leaves) ==> Live(IncLeaf(s, l).leaves)) && l in V(s)
  {
    hide LeavesCounted, RulesCounted, LeavesFit, Pooled;
  }

  lemma KeysSlots(s: State, g: Group)
    requires Counted(s)
    ensures KeysOf(TreeView(s.slots, V(s)), g) == set x | x in s.slots && x.Tree? && x.group == g :: x.key
    ensures forall x :: x in s.slots && x.Tree? ==> x in TreeView(s.slots, V(s))
  {
    hide Counted, V;
    SlotsInViews(s);
  }

  lemma GroupGone(s: State, g: Group, all: set<Slot>)
    requires all == set x | x in s.slots && x.Tree? && x.group == g
    ensures TreeView(s.slots, V(s)) - all == WithoutGroup(TreeView(s.slots, V(s)), g)
  {
    hide V;
  }

  lemma PoolUnseen(s: State, i: nat)
    ensures TreeView(s.slots, V(s)) - {Pool(i)} == TreeView(s.slots, V(s))
  {
    hide V;
  }

  lemma PoolBound(s: State)
    requires Counted(s)
    ensures forall x :: x in s.slots && x.Pool? ==> x.i < POOL_SIZE
  {
    hide LeavesCounted, RulesCounted, LeavesFit;
  }

  lemma ElsewhereHandles(s: State, s': State)
    requires Elsewhere(s, s')
    ensures s'.handles == s.handles
  {
  }

  lemma OnlyHandles(s: State)
    requires Counted(s) && s.leaves == map[]
    ensures forall r :: r in s.rules ==> s.rules[r].refcnt == s.handles[r]
  {
    hide LeavesCounted, LeavesFit, Pooled;
    forall r | r in s.rules ensures s.rules[r].refcnt == s.handles[r] {
      assert Users(s.leaves, r) == {};
    }
  }

  lemma MinusNext(v: View, all: set<Slot>, todo: set<Slot>, x: Slot)
    requires x in todo && todo <= all
    ensures v - (all - todo) - {x} == v - (all - (todo - {x}))
  {
    assert (all - todo) + {x} == all - (todo - {x});
  }

  // ---- Callers ----

  /** The payloads of the rules that callers hold. */
  ghost predicate Knows(s: State, payloads: map<RuleId, Payload>) {
    forall r :: r in s.handles ==> r in s.rules && r in payloads && payloads[r] == s.rules[r].entry.payload
  }

  /** What callers owe: a rule of the right kind to add, and a parent other than the group itself. */
  ghost predicate Fair(s: State, op: Op) {
    match op
    case AddRule(_, _, t, r) => r in s.handles && (0 <= t < RULE_MAX ==> !ListValued(t) && Fits(s.rules, r, t))
    case InheritFrom(g, parent) => g != parent
    case _ => true
  }

  lemma StillKnown(s: State, s': State, payloads: map<RuleId, Payload>)
    requires Elsewhere(s, s') && Knows(s, payloads)
    ensures Knows(s', payloads)
  {
  }

  lemma StillFair(s: State, s': State, op: Op)
    requires Elsewhere(s, s') && Fair(s, op)
    ensures Fair(s', op)
  {
  }

  lemma DropNothing(v: View, x: Slot, t: int)
    ensures x !in v ==> Drop(v, x, t) == v
  {
  }

  // ---- Extending a rule in place ----

  function Extended(e: Entry, bytes: seq<byte>): Entry
    requires e.payload.Data?
  {
    e.(payload := Data(e.payload.bytes + bytes))
  }

  /** A lookup at y of type u reaches the rule object cur. */
  predicate Reaches(s: State, y: Slot, u: int, cur: RuleId) {
    y in s.slots && y.Tree? && s.slots[y] in s.leaves && 0 <= u < |s.leaves[s.slots[y]].rules| && s.leaves[s.slots[y]].rules[u] == Some(cur)
  }

  /** What lookups see when the rule object cur says e: everything that reaches it, and nothing else, changes. */
  ghost function Spread(s: State, cur: RuleId, e: Entry): View
    requires cur in s.rules
  {
    TreeView(s.slots, V(EditRule(s, cur, e)))
  }

  lemma EditValue(lf: Leaf, rules: map<RuleId, Rule>, cur: RuleId, e: Entry)
    requires cur in rules
    ensures var a, b := Val(lf, rules).entries, Val(lf, rules[cur := rules[cur].(entry := e)]).entries;
            && b.Keys == a.Keys && forall u :: u in a ==> 0 <= u < |lf.rules| && b[u] == if lf.rules[u] == Some(cur) then e else a[u]
  {
  }

  lemma SpreadAt(s: State, cur: RuleId, e: Entry, y: Slot)
    requires Counted(s) && cur in s.rules && y in s.slots && y.Tree?
    ensures var v, w := TreeView(s.slots, V(s)), Spread(s, cur, e);
            && y in v && y in w && w[y].Keys == v[y].Keys && forall u :: u in v[y] ==> w[y][u] == if Reaches(s, y, u, cur) then e else v[y][u]
  {
    hide Counted, Val;
    SlotLeaves(s);
    EditValue(s.leaves[s.slots[y]], s.rules, cur, e);
  }

  lemma ReachedEntry(s: State, y: Slot, u: int, cur: RuleId)
    requires Counted(s) && Reaches(s, y, u, cur)
    ensures var v := TreeView(s.slots, V(s)); cur in s.rules && y in v && u in v[y] && v[y][u] == s.rules[cur].entry
  {
    hide Counted, V;
    EntryOf(s, s.slots[y], u);
    ViewAt(s, y);
  }

  /** No other lookup reaches the rule. */
  ghost predicate Alone(s: State, x: Slot, t: int, cur: RuleId) {
    forall y, u :: Reaches(s, y, u, cur) ==> y == x && u == t
  }

  /**
   * Extending a rule in place acts as on the plain map if and only if no other lookup, of this or of
   * any other group, reaches the same rule object.
   */
  lemma ExtendedIff(s: State, x: Slot, t: int, cur: RuleId, bytes: seq<byte>)
    requires Counted(s) && Reaches(s, x, t, cur) && cur in s.rules && s.rules[cur].entry.payload.Data? && bytes != []
    ensures var e := Extended(s.rules[cur].entry, bytes);
            Spread(s, cur, e) == Put(TreeView(s.slots, V(s)), x, t, e) <==> Alone(s, x, t, cur)
  {
    hide Counted, V, Reaches;
    var e := Extended(s.rules[cur].entry, bytes);
    var v, w := TreeView(s.slots, V(s)), Spread(s, cur, e);
    ReachedSlot(s, x, t, cur);
    ReachedEntry(s, x, t, cur);
    SpreadKeys(s, cur, e);
    if Alone(s, x, t, cur) {
      forall y | y in v ensures w[y] == Put(v, x, t, e)[y] {
        SpreadAt(s, cur, e, y);
        assert w[y].Keys == Put(v, x, t, e)[y].Keys;
        forall u | u in v[y] ensures w[y][u] == Put(v, x, t, e)[y][u] {
          assert Reaches(s, y, u, cur) <==> y == x && u == t;
        }
      }
      assert w == Put(v, x, t, e);
    } else {
      var y, u :| Reaches(s, y, u, cur) && !(y == x && u == t);
      ReachedSlot(s, y, u, cur);
      ReachedEntry(s, y, u, cur);
      SpreadAt(s, cur, e, y);
      Longer(s.rules[cur].entry, bytes);
      assert w[y][u] == e && Put(v, x, t, e)[y][u] == s.rules[cur].entry;
    }
  }

  /** The counters tell: a rule with one user, in a leaf with one reference, is reached by one lookup. */
  lemma CountersAlone(s: State, x: Slot, t: int, cur: RuleId)
    requires Counted(s) && Reaches(s, x, t, cur) && cur in s.rules
    requires s.rules[cur].refcnt - s.handles[cur] == 1 && s.leaves[s.slots[x]].refcnt == 1
    ensures Alone(s, x, t, cur)
  {
    hide Users, Holders, LeavesFit, Pooled, LeavesCounted;
    HolderCounts(s, x, s.slots[x]);
    SoleHolder(s.slots, x, s.slots[x]);
    SoleUser(s.leaves, s.slots[x], t, cur);
  }

  lemma Longer(e: Entry, bytes: seq<byte>)
    requires e.payload.Data? && bytes != []
    ensures Extended(e, bytes) != e
  {
    assert |e.payload.bytes + bytes| > |e.payload.bytes|;
  }

  lemma ReachedSlot(s: State, y: Slot, u: int, cur: RuleId)
    requires Reaches(s, y, u, cur)
    ensures y in s.slots && y.Tree?
  {
  }

  lemma SpreadKeys(s: State, cur: RuleId, e: Entry)
    requires Counted(s) && cur in s.rules
    ensures Spread(s, cur, e).Keys == TreeView(s.slots, V(s)).Keys
    ensures forall y :: y in TreeView(s.slots, V(s)) ==> y in s.slots && y.Tree?
  {
    hide Counted, Val;
  }

  /** The rule object of type t that slot x leads to. */
  function RuleAt(s: State, x: Slot, t: int): Option<RuleId> {
    if x in s.slots && s.slots[x] in s.leaves && 0 <= t < |s.leaves[s.slots[x]].rules| then s.leaves[s.slots[x]].rules[t] else None
  }

  /** An add of a list-valued type to a domain that has one extends it. */
  predicate Appends(s: State, x: Slot, t: int) {
    ListValued(t) && RuleAt(s, x, t).Some?
  }

  lemma RuleThere(s: State, x: Slot, t: int)
    requires Counted(s) && RuleAt(s, x, t).Some?
    ensures var cur := RuleAt(s, x, t).value; cur in s.rules && Fits(s.rules, cur, t) && (x.Tree? ==> Reaches(s, x, t, cur))
  {
    hide LeavesCounted, RulesCounted, Pooled;
    EntryOf(s, s.slots[x], t);
  }

  /** A private leaf made of the leaf at x holds its rules. */
  lemma PrivateRule(s: State, s1: State, x: Slot, l: LeafId, t: int)
    requires Counted(s) && x in s.slots && Private(s, s1, Some(s.slots[x]), l, t) && RuleAt(s, x, t).Some?
    ensures l in s1.leaves && t < |s1.leaves[l].rules| && s1.leaves[l].rules[t] == RuleAt(s, x, t)
    ensures s1.rules.Keys == s.rules.Keys && s1.slots == s.slots && s1.handles == s.handles
    ensures s1.temp == s.temp + (if s.slots[x] == l then multiset{} else multiset{l})
    ensures forall r :: r in s.rules ==> s1.rules[r].entry == s.rules[r].entry
  {
    hide Counted, V;
  }

  lemma EditSharedKeeps(s: State, r: RuleId, e: Entry)
    requires Counted(s) && r in s.rules && e.payload.Flags? == s.rules[r].entry.payload.Flags?
    ensures Counted(EditRule(s, r, e))
  {
    hide Users, Holders;
  }

  lemma ValSame(lf: Leaf, lf': Leaf, rules: map<RuleId, Rule>, rules': map<RuleId, Rule>)
    requires rules'.Keys == rules.Keys && forall r :: r in rules ==> rules'[r].entry == rules[r].entry
    requires |lf.rules| <= |lf'.rules|
    requires forall t :: 0 <= t < |lf'.rules| ==> lf'.rules[t] == if t < |lf.rules| then lf.rules[t] else None
    ensures Val(lf', rules').entries == Val(lf, rules).entries
  {
  }

  /** What the leaves of s1 say after the edit is what those of s would say. */
  lemma PrivateEdit(s: State, s1: State, x: Slot, l: LeafId, t: int, cur: RuleId, e: Entry)
    requires Counted(s) && x in s.slots && Private(s, s1, Some(s.slots[x]), l, t) && cur in s.rules && cur in s1.rules
    requires s1.rules.Keys == s.rules.Keys && forall r :: r in s.rules ==> s1.rules[r].entry == s.rules[r].entry
    ensures var v, w := V(EditRule(s, cur, e)), V(EditRule(s1, cur, e));
            && (forall z :: z in s.leaves ==> z in v && z in w && w[z].entries == v[z].entries)
            && l in w && s.slots[x] in v && w[l].entries == v[s.slots[x]].entries
  {
    hide Val, LeavesCounted, RulesCounted, LeavesFit, Pooled;
    var rules, rules1 := EditRule(s, cur, e).rules, EditRule(s1, cur, e).rules;
    forall z | z in s.leaves ensures z in s1.leaves && Val(s1.leaves[z], rules1).entries == Val(s.leaves[z], rules).entries {
      ValSame(s.leaves[z], s1.leaves[z], rules, rules1);
    }
    if l != s.slots[x] {
      ValSame(s.leaves[s.slots[x]], s1.leaves[l], rules, rules1);
    }
  }

  lemma SpreadDone(s: State, s1: State, s3: State, x: Slot, l: LeafId, t: int, cur: RuleId, e: Entry)
    requires Counted(s) && x in s.slots && x.Tree? && Private(s, s1, Some(s.slots[x]), l, t) && cur in s.rules && cur in s1.rules
    requires s1.rules.Keys == s.rules.Keys && forall r :: r in s.rules ==> s1.rules[r].entry == s.rules[r].entry
    requires Counted(s3) && Shrinks(V(EditRule(s1, cur, e)), V(s3)) && s3.slots == s.slots[x := l]
    ensures TreeView(s3.slots, V(s3)) == Spread(s, cur, e)
  {
    hide Counted, V, Private;
    PrivateEdit(s, s1, x, l, t, cur, e);
    SlotLeaves(s);
    SlotsInViews(s3);
    var a, b := TreeView(s3.slots, V(s3)), Spread(s, cur, e);
    assert forall y :: y in a <==> y in b;
    forall y | y in a ensures a[y] == b[y] {
    }
  }

  // ---- Sharing by inheritance ----

  /** At the given keys the child holds the parent's leaves, and the parent those it held. */
  ghost predicate Handing(slots: map<Slot, LeafId>, slots': map<Slot, LeafId>, parent: Group, child: Group, keys: set<Text>) {
    && (forall k :: Tree(parent, k) in slots ==> Tree(parent, k) in slots' && slots'[Tree(parent, k)] == slots[Tree(parent, k)])
    && (forall k :: k in keys ==> Tree(parent, k) in slots && Tree(child, k) in slots' && slots'[Tree(child, k)] == slots[Tree(parent, k)])
  }

  lemma HandingNone(slots: map<Slot, LeafId>, parent: Group, child: Group, all: set<Text>)
    ensures Handing(slots, slots, parent, child, all - all)
  {
  }

  lemma HandingNext(slots: map<Slot, LeafId>, slots': map<Slot, LeafId>, parent: Group, child: Group, all: set<Text>, todo: set<Text>, k: Text)
    requires Handing(slots, slots', parent, child, all - todo) && parent != child && k in todo && Tree(parent, k) in slots
    ensures Tree(parent, k) in slots' && Handing(slots, slots'[Tree(child, k) := slots'[Tree(parent, k)]], parent, child, all - (todo - {k}))
  {
  }

  lemma HandingAll(slots: map<Slot, LeafId>, slots': map<Slot, LeafId>, parent: Group, child: Group, all: set<Text>)
    requires Handing(slots, slots', parent, child, all) && all == set x | x in slots && x.Tree? && x.group == parent :: x.key
    ensures forall k :: Tree(parent, k) in slots ==>
              Tree(parent, k) in slots' && Tree(child, k) in slots' && slots'[Tree(child, k)] == slots'[Tree(parent, k)] == slots[Tree(parent, k)]
  {
    forall k | Tree(parent, k) in slots ensures k in all {
      assert Tree(parent, k).key == k;
    }
  }

  /** A leaf slot that two domains share is a rule that both reach. */
  lemma SharedReach(s: State, x: Slot, y: Slot, t: int)
    requires Counted(s) && x in s.slots && y in s.slots && s.slots[x] == s.slots[y] && x.Tree? && y.Tree? && RuleAt(s, x, t).Some?
    ensures RuleAt(s, y, t) == RuleAt(s, x, t) && Reaches(s, y, t, RuleAt(s, x, t).value) && Reaches(s, x, t, RuleAt(s, x, t).value)
  {
    hide Counted;
  }

  /** What a lookup shows of a rule: the entry of the object its slot leads to. */
  lemma ShownRule(s: State, x: Slot, t: int)
    requires Counted(s) && x in s.slots && x.Tree?
    ensures var v := TreeView(s.slots, V(s)); x in v && (t in v[x] <==> RuleAt(s, x, t).Some?)
    ensures RuleAt(s, x, t).Some? ==> var cur := RuleAt(s, x, t).value; cur in s.rules && TreeView(s.slots, V(s))[x][t] == s.rules[cur].entry
  {
    hide Counted, V;
    ViewAt(s, x);
    SlotLeaves(s);
    if 0 <= t < |s.leaves[s.slots[x]].rules| {
      EntryOf(s, s.slots[x], t);
    } else {
      NoRoom(s, s.slots[x], t);
    }
  }

  lemma NoRoom(s: State, l: LeafId, t: int)
    requires l in s.leaves && !(0 <= t < |s.leaves[l].rules|)
    ensures l in V(s) && t !in V(s)[l].entries
  {
  }

  lemma AppendsSlot(s: State, x: Slot, t: int)
    requires Appends(s, x, t)
    ensures x in s.slots && RuleAt(s, x, t).Some?
  {
  }

  /** Callers' rules after an operation. */
  lemma StillFits(s: State, s': State, r: RuleId, t: int)
    requires Elsewhere(s, s') && r in s.handles && Fits(s.rules, r, t)
    ensures r in s'.handles && Fits(s'.rules, r, t) && r in s.rules && r in s'.rules && s'.rules[r].entry.payload == s.rules[r].entry.payload
  {
    hide PoolKept;
  }

  lemma ParentStays(v: View, parent: Group, child: Group, key: Text)
    requires parent != child && Tree(parent, key) in v
    ensures Tree(parent, key) in InheritedView(v, parent, child) && InheritedView(v, parent, child)[Tree(parent, key)] == v[Tree(parent, key)]
  {
  }
}
