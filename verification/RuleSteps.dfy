/**
 * The elementary steps on the heap of domain rules. Every reference counter is exact after each of
 * them, counting the references that running code and callers hold (temp, handles).
 */
module RuleSteps {
  import opened Bytes
  import opened RuleCounts

  datatype State = State(slots: map<Slot, LeafId>, leaves: map<LeafId, Leaf>, rules: map<RuleId, Rule>,
                         temp: multiset<LeafId>, handles: multiset<RuleId>)

  /** A leaf's counter is the number of tree and pool slots holding it, plus references in flight. */
  ghost predicate LeavesCounted(slots: map<Slot, LeafId>, leaves: map<LeafId, Leaf>, temp: multiset<LeafId>) {
    forall l :: l in leaves ==> leaves[l].refcnt == |Holders(slots, l)| + temp[l]
  }

  /** A rule's counter is the number of leaf slots holding it plus the handles of callers. */
  ghost predicate RulesCounted(leaves: map<LeafId, Leaf>, rules: map<RuleId, Rule>, handles: multiset<RuleId>) {
    forall r :: r in rules ==> rules[r].refcnt == |Users(leaves, r)| + handles[r] && rules[r].refcnt > 0
  }

  /** Slot 0 of a leaf, and no other, is for flags. */
  predicate Fits(rules: map<RuleId, Rule>, r: RuleId, t: int) {
    r in rules && (rules[r].entry.payload.Flags? <==> t == FLAGS)
  }

  ghost predicate LeafFits(rules: map<RuleId, Rule>, lf: Leaf) {
    1 <= |lf.rules| <= RULE_MAX && forall t :: 0 <= t < |lf.rules| && lf.rules[t].Some? ==> Fits(rules, lf.rules[t].value, t)
  }

  ghost predicate LeavesFit(leaves: map<LeafId, Leaf>, rules: map<RuleId, Rule>) {
    forall l :: l in leaves ==> LeafFits(rules, leaves[l])
  }

  /** Every reference leads to a live object. */
  ghost predicate SlotsClosed(slots: map<Slot, LeafId>, leaves: map<LeafId, Leaf>) {
    forall x :: x in slots ==> slots[x] in leaves
  }

  ghost predicate TempClosed(temp: multiset<LeafId>, leaves: map<LeafId, Leaf>) {
    forall l :: l in temp ==> l in leaves
  }

  ghost predicate HandlesClosed(handles: multiset<RuleId>, rules: map<RuleId, Rule>) {
    forall r :: r in handles ==> r in rules
  }

  /** Leaves of the pool hold flags and nothing else. */
  predicate FlagsLeaf(lf: Leaf) {
    |lf.rules| == 1 && lf.rules[FLAGS].Some?
  }

  ghost predicate Pooled(slots: map<Slot, LeafId>, leaves: map<LeafId, Leaf>) {
    forall x :: x in slots && x.Pool? ==> x.i < POOL_SIZE && slots[x] in leaves && FlagsLeaf(leaves[slots[x]])
  }

  ghost predicate Counted(s: State) {
    && LeavesCounted(s.slots, s.leaves, s.temp) && RulesCounted(s.leaves, s.rules, s.handles)
    && SlotsClosed(s.slots, s.leaves) && TempClosed(s.temp, s.leaves) && HandlesClosed(s.handles, s.rules)
    && LeavesFit(s.leaves, s.rules) && Pooled(s.slots, s.leaves)
  }

  ghost function V(s: State): map<LeafId, LeafVal> {
    Views(s.leaves, s.rules)
  }

  function Nones(cap: nat): (rs: seq<Option<RuleId>>)
    ensures |rs| == cap && NoRules(rs)
  {
    seq(cap, _ => None)
  }

  // ---- Leaves ----

  function Alloc(s: State, l: LeafId, cap: nat): State {
    s.(leaves := s.leaves[l := Leaf(1, Nones(cap))], temp := s.temp + multiset{l})
  }

  lemma AllocKeeps(s: State, l: LeafId, cap: nat)
    requires Counted(s) && l !in s.leaves && 1 <= cap <= RULE_MAX
    ensures Counted(Alloc(s, l, cap)) && V(Alloc(s, l, cap)) == V(s)[l := LeafVal(cap, map[])]
  {
    hide Holders, Users, Views, LeavesCounted, RulesCounted, LeafFits;
    var lf := Leaf(1, Nones(cap));
    EmptyFits(s.rules, lf);
    RulesAdd(s.leaves, s.rules, s.handles, l, lf);
    LeavesAdd(s.slots, s.leaves, s.temp, l, lf);
    ViewsAdd(s.leaves, s.rules, l, lf);
  }

  lemma EmptyFits(rules: map<RuleId, Rule>, lf: Leaf)
    requires NoRules(lf.rules) && 1 <= |lf.rules| <= RULE_MAX
    ensures LeafFits(rules, lf)
  {
  }

  lemma RulesAdd(leaves: map<LeafId, Leaf>, rules: map<RuleId, Rule>, handles: multiset<RuleId>, l: LeafId, lf: Leaf)
    requires RulesCounted(leaves, rules, handles) && l !in leaves && NoRules(lf.rules)
    ensures RulesCounted(leaves[l := lf], rules, handles)
  {
    hide Users;
    forall r ensures Users(leaves[l := lf], r) == Users(leaves, r) {
      UsersAdd(leaves, l, lf, r);
    }
  }

  lemma LeavesAdd(slots: map<Slot, LeafId>, leaves: map<LeafId, Leaf>, temp: multiset<LeafId>, l: LeafId, lf: Leaf)
    requires LeavesCounted(slots, leaves, temp) && l !in leaves && l !in temp && lf.refcnt == 1
    requires forall x :: x in slots ==> slots[x] != l
    ensures LeavesCounted(slots, leaves[l := lf], temp + multiset{l})
  {
    hide Holders;
    NotHeld(slots, l);
  }

  lemma NotHeld(slots: map<Slot, LeafId>, l: LeafId)
    requires forall x :: x in slots ==> slots[x] != l
    ensures Holders(slots, l) == {}
  {
  }

  /** The same leaves with another counter on l. */
  function Recount(leaves: map<LeafId, Leaf>, l: LeafId, n: nat): map<LeafId, Leaf>
    requires l in leaves
  {
    leaves[l := leaves[l].(refcnt := n)]
  }

  lemma RecountKeeps(s: State, l: LeafId, n: nat)
    requires l in s.leaves
    ensures var leaves' := Recount(s.leaves, l, n);
            && (RulesCounted(s.leaves, s.rules, s.handles) ==> RulesCounted(leaves', s.rules, s.handles))
            && (LeavesFit(s.leaves, s.rules) ==> LeavesFit(leaves', s.rules))
            && (Pooled(s.slots, s.leaves) ==> Pooled(s.slots, leaves'))
            && Views(leaves', s.rules) == V(s)
  {
    hide Users, Views, Fits;
    var leaves' := Recount(s.leaves, l, n);
    forall r ensures Users(leaves', r) == Users(s.leaves, r) {
      UsersSame(s.leaves, leaves', r);
    }
    ViewsSame(s.leaves, leaves', s.rules, s.rules);
  }

  function IncLeaf(s: State, l: LeafId): State
    requires l in s.leaves
  {
    s.(leaves := Recount(s.leaves, l, s.leaves[l].refcnt + 1), temp := s.temp + multiset{l})
  }

  lemma IncLeafKeeps(s: State, l: LeafId)
    requires Counted(s) && l in s.leaves
    ensures Counted(IncLeaf(s, l)) && V(IncLeaf(s, l)) == V(s)
  {
    hide Users, Views, Holders, RulesCounted, LeavesFit, Pooled, HandlesClosed;
    RecountKeeps(s, l, s.leaves[l].refcnt + 1);
  }

  function DecLeaf(s: State, l: LeafId): State
    requires l in s.leaves && s.leaves[l].refcnt > 0
  {
    s.(leaves := Recount(s.leaves, l, s.leaves[l].refcnt - 1), temp := s.temp - multiset{l})
  }

  lemma DecLeafKeeps(s: State, l: LeafId)
    requires Counted(s) && l in s.temp
    ensures l in s.leaves && s.leaves[l].refcnt > 0
    ensures Counted(DecLeaf(s, l)) && V(DecLeaf(s, l)) == V(s)
  {
    hide Users, Views, Holders, RulesCounted, LeavesFit, Pooled, HandlesClosed, LeavesCounted;
    LeavesDec(s, l);
    RecountKeeps(s, l, s.leaves[l].refcnt - 1);
  }

  lemma LeavesDec(s: State, l: LeafId)
    requires LeavesCounted(s.slots, s.leaves, s.temp) && l in s.temp && l in s.leaves
    ensures s.leaves[l].refcnt > 0 && LeavesCounted(s.slots, DecLeaf(s, l).leaves, s.temp - multiset{l})
  {
    hide Holders;
  }

  function DelLeaf(s: State, l: LeafId): State {
    s.(leaves := s.leaves - {l})
  }

  lemma DelLeafKeeps(s: State, l: LeafId)
    requires Counted(s) && l in s.leaves && s.leaves[l].refcnt == 0 && NoRules(s.leaves[l].rules)
    ensures Counted(DelLeaf(s, l)) && V(DelLeaf(s, l)) == V(s) - {l}
  {
    hide Users, Views, Holders, LeafFits, RulesCounted;
    NoHolder(s.slots, l);
    RulesDel(s.leaves, s.rules, s.handles, l);
    ViewsDel(s.leaves, s.rules, l);
  }

  lemma RulesDel(leaves: map<LeafId, Leaf>, rules: map<RuleId, Rule>, handles: multiset<RuleId>, l: LeafId)
    requires RulesCounted(leaves, rules, handles) && l in leaves && NoRules(leaves[l].rules)
    ensures RulesCounted(leaves - {l}, rules, handles)
  {
    hide Users;
    forall r ensures Users(leaves - {l}, r) == Users(leaves, r) {
      UsersDel(leaves, l, r);
    }
  }

  // ---- Slots ----

  /** Slot x takes over the reference to l; what it held before is in flight. */
  function SetSlot(s: State, x: Slot, l: LeafId): State {
    s.(slots := s.slots[x := l], temp := s.temp - multiset{l} + (if x in s.slots then multiset{s.slots[x]} else multiset{}))
  }

  lemma SetSlotKeeps(s: State, x: Slot, l: LeafId)
    requires Counted(s) && l in s.temp
    requires x.Pool? ==> x.i < POOL_SIZE && l in s.leaves && FlagsLeaf(s.leaves[l])
    ensures Counted(SetSlot(s, x, l)) && V(SetSlot(s, x, l)) == V(s)
  {
    hide Users, Views, Holders, RulesCounted, LeavesFit, LeavesCounted, HandlesClosed, TempClosed;
    assert TempClosed(SetSlot(s, x, l).temp, s.leaves) by { TempSet(s, x, l); }
    assert l in s.leaves by { TempSet(s, x, l); }
    LeavesSet(s, x, l);
  }

  lemma TempSet(s: State, x: Slot, l: LeafId)
    requires TempClosed(s.temp, s.leaves) && SlotsClosed(s.slots, s.leaves) && l in s.temp
    ensures TempClosed(SetSlot(s, x, l).temp, s.leaves) && l in s.leaves
  {
  }

  lemma LeavesSet(s: State, x: Slot, l: LeafId)
    requires LeavesCounted(s.slots, s.leaves, s.temp) && l in s.temp
    ensures var s' := SetSlot(s, x, l); LeavesCounted(s'.slots, s'.leaves, s'.temp)
  {
    hide Holders;
    var s' := SetSlot(s, x, l);
    forall y | y in s.leaves ensures s'.leaves[y].refcnt == |Holders(s'.slots, y)| + s'.temp[y] {
      HoldersSet(s.slots, x, l, y);
    }
  }

  function ClearSlot(s: State, x: Slot): State
    requires x in s.slots
  {
    s.(slots := s.slots - {x}, temp := s.temp + multiset{s.slots[x]})
  }

  lemma ClearSlotKeeps(s: State, x: Slot)
    requires Counted(s) && x in s.slots
    ensures Counted(ClearSlot(s, x)) && V(ClearSlot(s, x)) == V(s)
  {
    hide Users, Views, Holders, RulesCounted, LeavesFit, LeavesCounted, HandlesClosed;
    LeavesClear(s, x);
  }

  lemma LeavesClear(s: State, x: Slot)
    requires LeavesCounted(s.slots, s.leaves, s.temp) && x in s.slots
    ensures var s' := ClearSlot(s, x); LeavesCounted(s'.slots, s'.leaves, s'.temp)
  {
    hide Holders;
    var s' := ClearSlot(s, x);
    forall y | y in s.leaves ensures s'.leaves[y].refcnt == |Holders(s'.slots, y)| + s'.temp[y] {
      HoldersDel(s.slots, x, y);
    }
  }

  // ---- Rules in leaves ----

  function StoreRule(s: State, l: LeafId, t: int, r: RuleId): State
    requires l in s.leaves && 0 <= t < |s.leaves[l].rules|
  {
    s.(leaves := WithRule(s.leaves, l, t, Some(r)), handles := s.handles - multiset{r})
  }

  lemma StoreRuleKeeps(s: State, l: LeafId, t: int, r: RuleId)
    requires Counted(s) && l in s.leaves && 0 <= t < |s.leaves[l].rules| && s.leaves[l].rules[t] == None
    requires r in s.handles && Fits(s.rules, r, t)
    ensures Counted(StoreRule(s, l, t, r))
    ensures l in V(s) && V(StoreRule(s, l, t, r)) == V(s)[l := V(s)[l].(entries := V(s)[l].entries[t := s.rules[r].entry])]
  {
    hide Users, Holders, Val, Fits, RulesCounted, LeavesFit, TempClosed;
    assert TempClosed(s.temp, WithRule(s.leaves, l, t, Some(r))) by { TempSame(s.temp, s.leaves, WithRule(s.leaves, l, t, Some(r))); }
    RulesStore(s.leaves, s.rules, s.handles, l, t, r);
    FitSet(s.leaves, s.rules, l, t, Some(r));
    ViewsSet(s.leaves, s.rules, l, t, r);
    assert Fits(s.rules, r, t) ==> r in s.rules by { FitsIn(s.rules, r, t); }
  }

  lemma TempSame(temp: multiset<LeafId>, leaves: map<LeafId, Leaf>, leaves': map<LeafId, Leaf>)
    requires TempClosed(temp, leaves) && leaves'.Keys == leaves.Keys
    ensures TempClosed(temp, leaves')
  {
  }

  lemma FitsIn(rules: map<RuleId, Rule>, r: RuleId, t: int)
    ensures Fits(rules, r, t) ==> r in rules
  {
  }

  lemma RulesStore(leaves: map<LeafId, Leaf>, rules: map<RuleId, Rule>, handles: multiset<RuleId>, l: LeafId, t: int, r: RuleId)
    requires RulesCounted(leaves, rules, handles) && l in leaves && 0 <= t < |leaves[l].rules| && leaves[l].rules[t] == None
    requires r in handles
    ensures RulesCounted(WithRule(leaves, l, t, Some(r)), rules, handles - multiset{r})
  {
    hide Users, WithRule;
    forall q | q in rules ensures rules[q].refcnt == |Users(WithRule(leaves, l, t, Some(r)), q)| + (handles - multiset{r})[q] {
      UsersSet(leaves, l, t, Some(r), q);
    }
  }

  lemma FitSet(leaves: map<LeafId, Leaf>, rules: map<RuleId, Rule>, l: LeafId, t: int, v: Option<RuleId>)
    requires LeavesFit(leaves, rules) && l in leaves && 0 <= t < |leaves[l].rules| && (v.Some? ==> Fits(rules, v.value, t))
    ensures LeavesFit(WithRule(leaves, l, t, v), rules)
  {
    hide Fits;
  }

  function TakeRule(s: State, l: LeafId, t: int): State
    requires l in s.leaves && 0 <= t < |s.leaves[l].rules| && s.leaves[l].rules[t].Some?
  {
    s.(leaves := WithRule(s.leaves, l, t, None), handles := s.handles + multiset{s.leaves[l].rules[t].value})
  }

  lemma TakeRuleKeeps(s: State, l: LeafId, t: int)
    requires Counted(s) && l in s.leaves && 0 <= t < |s.leaves[l].rules| && s.leaves[l].rules[t].Some?
    requires forall x :: x in s.slots && x.Pool? ==> s.slots[x] != l
    ensures Counted(TakeRule(s, l, t))
    ensures l in V(s) && V(TakeRule(s, l, t)) == V(s)[l := V(s)[l].(entries := V(s)[l].entries - {t})]
  {
    hide Users, Holders, Val, Fits, RulesCounted, LeavesFit, TempClosed;
    assert TempClosed(s.temp, WithRule(s.leaves, l, t, None)) by { TempSame(s.temp, s.leaves, WithRule(s.leaves, l, t, None)); }
    RulesTake(s.leaves, s.rules, s.handles, l, t);
    RuleExists(s.leaves, s.rules, l, t);
    FitSet(s.leaves, s.rules, l, t, None);
    ViewsUnset(s.leaves, s.rules, l, t);
  }

  lemma RuleExists(leaves: map<LeafId, Leaf>, rules: map<RuleId, Rule>, l: LeafId, t: int)
    requires LeavesFit(leaves, rules) && l in leaves && 0 <= t < |leaves[l].rules| && leaves[l].rules[t].Some?
    ensures Fits(rules, leaves[l].rules[t].value, t) && leaves[l].rules[t].value in rules
  {
  }

  lemma RulesTake(leaves: map<LeafId, Leaf>, rules: map<RuleId, Rule>, handles: multiset<RuleId>, l: LeafId, t: int)
    requires RulesCounted(leaves, rules, handles) && l in leaves && 0 <= t < |leaves[l].rules| && leaves[l].rules[t].Some?
    ensures RulesCounted(WithRule(leaves, l, t, None), rules, handles + multiset{leaves[l].rules[t].value})
  {
    hide Users, WithRule;
    var handles' := handles + multiset{leaves[l].rules[t].value};
    forall q | q in rules ensures rules[q].refcnt == |Users(WithRule(leaves, l, t, None), q)| + handles'[q] {
      UsersSet(leaves, l, t, None, q);
    }
  }

  // ---- Rules ----

  /** Rules that leaves use keep their entries. */
  lemma RulesChange(s: State, rules': map<RuleId, Rule>)
    requires LeavesFit(s.leaves, s.rules)
    requires forall r :: r in s.rules && r !in rules' ==> |Users(s.leaves, r)| == 0
    requires forall r :: r in s.rules && r in rules' ==> rules'[r].entry == s.rules[r].entry || |Users(s.leaves, r)| == 0
    ensures LeavesFit(s.leaves, rules') && Views(s.leaves, rules') == V(s)
  {
    hide Users, Views;
    forall l, t | l in s.leaves && 0 <= t < |s.leaves[l].rules| && s.leaves[l].rules[t].Some?
      ensures SameRule(s.rules, rules', s.leaves[l].rules[t].value) && Fits(rules', s.leaves[l].rules[t].value, t)
    {
      var r := s.leaves[l].rules[t].value;
      RuleExists(s.leaves, s.rules, l, t);
      IsUser(s.leaves, l, t, r);
    }
    ViewsSame(s.leaves, s.leaves, s.rules, rules');
  }

  function NewRule(s: State, r: RuleId, e: Entry): State {
    s.(rules := s.rules[r := Rule(1, e)], handles := s.handles + multiset{r})
  }

  lemma NewRuleKeeps(s: State, r: RuleId, e: Entry)
    requires Counted(s) && r !in s.rules
    ensures Counted(NewRule(s, r, e)) && V(NewRule(s, r, e)) == V(s)
  {
    hide Holders, Views, Users, LeavesFit, LeavesCounted, Pooled, RulesCounted, SlotsClosed, TempClosed;
    RulesChange(s, NewRule(s, r, e).rules);
    RulesNew(s, r, e);
  }

  lemma RulesNew(s: State, r: RuleId, e: Entry)
    requires RulesCounted(s.leaves, s.rules, s.handles) && LeavesFit(s.leaves, s.rules) && r !in s.rules && r !in s.handles
    ensures RulesCounted(s.leaves, NewRule(s, r, e).rules, s.handles + multiset{r})
  {
    hide Users, LeavesFit;
    assert |Users(s.leaves, r)| == 0 by { Unused(s, r); }
  }

  lemma Unused(s: State, r: RuleId)
    requires LeavesFit(s.leaves, s.rules) && r !in s.rules
    ensures Users(s.leaves, r) == {}
  {
  }

  function GetRule(s: State, r: RuleId): State
    requires r in s.rules
  {
    s.(rules := s.rules[r := s.rules[r].(refcnt := s.rules[r].refcnt + 1)], handles := s.handles + multiset{r})
  }

  lemma GetRuleKeeps(s: State, r: RuleId)
    requires Counted(s) && r in s.rules
    ensures Counted(GetRule(s, r)) && V(GetRule(s, r)) == V(s)
  {
    hide Holders, Views, Users, LeavesFit, LeavesCounted, Pooled, SlotsClosed, TempClosed, RulesCounted;
    RulesGet(s, r);
    RulesChange(s, GetRule(s, r).rules);
  }

  lemma RulesGet(s: State, r: RuleId)
    requires RulesCounted(s.leaves, s.rules, s.handles) && r in s.rules
    ensures RulesCounted(s.leaves, GetRule(s, r).rules, s.handles + multiset{r})
  {
    hide Users;
  }

  /** A rule whose last reference goes is freed. */
  function PutRule(s: State, r: RuleId): State
    requires r in s.rules && s.rules[r].refcnt > 0
  {
    var n := s.rules[r].refcnt - 1;
    s.(rules := if n == 0 then s.rules - {r} else s.rules[r := s.rules[r].(refcnt := n)], handles := s.handles - multiset{r})
  }

  lemma PutRuleKeeps(s: State, r: RuleId)
    requires Counted(s) && r in s.handles
    ensures r in s.rules && s.rules[r].refcnt > 0
    ensures Counted(PutRule(s, r)) && V(PutRule(s, r)) == V(s)
  {
    hide Holders, Views, Users, LeavesFit, LeavesCounted, Pooled, SlotsClosed, TempClosed, RulesCounted;
    RulesPut(s, r);
    RulesChange(s, PutRule(s, r).rules);
  }

  lemma RulesPut(s: State, r: RuleId)
    requires RulesCounted(s.leaves, s.rules, s.handles) && HandlesClosed(s.handles, s.rules) && r in s.handles
    ensures s.rules[r].refcnt > 0
    ensures RulesCounted(s.leaves, PutRule(s, r).rules, s.handles - multiset{r})
    ensures HandlesClosed(s.handles - multiset{r}, PutRule(s, r).rules)
    ensures s.rules[r].refcnt == 1 ==> |Users(s.leaves, r)| == 0
  {
    hide Users;
    assert s.handles[r] >= 1;
  }

  function EditRule(s: State, r: RuleId, e: Entry): State
    requires r in s.rules
  {
    s.(rules := s.rules[r := s.rules[r].(entry := e)])
  }

  /** Editing a rule whose only owner is slot t of leaf l. */
  lemma EditUsedKeeps(s: State, l: LeafId, t: int, r: RuleId, e: Entry)
    requires Counted(s) && l in s.leaves && 0 <= t < |s.leaves[l].rules| && s.leaves[l].rules[t] == Some(r)
    requires r in s.rules && s.rules[r].refcnt == 1 && e.payload.Flags? == s.rules[r].entry.payload.Flags?
    ensures Counted(EditRule(s, r, e))
    ensures l in V(s) && V(EditRule(s, r, e)) == V(s)[l := V(s)[l].(entries := V(s)[l].entries[t := e])]
  {
    hide Holders, Users, Val, LeavesCounted, Pooled;
    IsUser(s.leaves, l, t, r);
    SoleUser(s.leaves, l, t, r);
    ViewsEdit(s.leaves, s.rules, l, t, r, e);
  }

  /** Editing a rule that is in no leaf, or writing what it says already. */
  lemma EditHeldKeeps(s: State, r: RuleId, e: Entry)
    requires Counted(s) && r in s.handles && r in s.rules && e.payload.Flags? == s.rules[r].entry.payload.Flags?
    requires s.rules[r].refcnt == 1 || e == s.rules[r].entry
    ensures Counted(EditRule(s, r, e)) && V(EditRule(s, r, e)) == V(s)
  {
    hide Holders, Users, Views, LeavesFit, LeavesCounted, Pooled, SlotsClosed, TempClosed;
    RulesChange(s, EditRule(s, r, e).rules);
  }
}
