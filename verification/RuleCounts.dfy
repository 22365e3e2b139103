/**
 * The heap of domain rules (src/dns_conf/domain_rule.c) as maps from ids to records, with the
 * counting lemmas: who holds a leaf, who uses a rule, and what a leaf says.
 */
module RuleCounts {
  import opened Bytes
  import opened Sets
  import opened NameDecode

  const RULE_MAX: int := 17
  const FLAGS: int := 0
  const POOL_SIZE: nat := 1024

  type Group = Text
  type LeafId = nat
  type RuleId = nat

  datatype Payload = Flags(flags: bv32, isSet: bv32) | Data(bytes: seq<byte>)
  datatype Entry = Entry(payload: Payload, sub: bool, root: bool)
  datatype Rule = Rule(refcnt: nat, entry: Entry)

  /** A leaf; its capacity is the number of rule slots. */
  datatype Leaf = Leaf(refcnt: nat, rules: seq<Option<RuleId>>)

  /** The places that own a reference to a leaf: a key in a group's tree, or a bucket of the pool. */
  datatype Slot = Tree(group: Group, key: Text) | Pool(i: nat)

  // ---- Holders of leaves ----

  ghost function Holders(slots: map<Slot, LeafId>, l: LeafId): set<Slot> {
    set x | x in slots && slots[x] == l
  }

  lemma HoldersSet(slots: map<Slot, LeafId>, x: Slot, l: LeafId, y: LeafId)
    ensures |Holders(slots[x := l], y)|
            == |Holders(slots, y)| - (if x in slots && slots[x] == y then 1 else 0) + (if l == y then 1 else 0)
  {
    var A := Holders(slots, y);
    assert Holders(slots[x := l], y) == (A - {x}) + (if l == y then {x} else {});
    assert x in slots && slots[x] == y ==> x in A;
  }

  lemma HoldersDel(slots: map<Slot, LeafId>, x: Slot, y: LeafId)
    ensures |Holders(slots - {x}, y)| == |Holders(slots, y)| - (if x in slots && slots[x] == y then 1 else 0)
  {
    var A := Holders(slots, y);
    assert Holders(slots - {x}, y) == A - {x};
    assert x in slots && slots[x] == y ==> x in A;
  }

  /** A leaf with one reference has one owner. */
  lemma SoleHolder(slots: map<Slot, LeafId>, x: Slot, l: LeafId)
    requires x in slots && slots[x] == l && |Holders(slots, l)| == 1
    ensures forall y :: y in slots && slots[y] == l ==> y == x
  {
    var A := Holders(slots, l);
    assert x in A && |A - {x}| == 0;
    assert forall y :: y in slots && slots[y] == l ==> y in A && y !in A - {x};
  }

  lemma NoHolder(slots: map<Slot, LeafId>, l: LeafId)
    requires |Holders(slots, l)| == 0
    ensures forall y :: y in slots ==> slots[y] != l
  {
    assert forall y :: y in slots ==> y !in Holders(slots, l);
  }

  // ---- Users of rules ----

  ghost function Users(leaves: map<LeafId, Leaf>, r: RuleId): set<(LeafId, int)> {
    set l, t | l in leaves && 0 <= t < |leaves[l].rules| && leaves[l].rules[t] == Some(r) :: (l, t)
  }

  function WithRule(leaves: map<LeafId, Leaf>, l: LeafId, t: int, v: Option<RuleId>): map<LeafId, Leaf>
    requires l in leaves && 0 <= t < |leaves[l].rules|
  {
    leaves[l := leaves[l].(rules := leaves[l].rules[t := v])]
  }

  lemma UsersSet(leaves: map<LeafId, Leaf>, l: LeafId, t: int, v: Option<RuleId>, r: RuleId)
    requires l in leaves && 0 <= t < |leaves[l].rules|
    ensures |Users(WithRule(leaves, l, t, v), r)|
            == |Users(leaves, r)| - (if leaves[l].rules[t] == Some(r) then 1 else 0) + (if v == Some(r) then 1 else 0)
  {
    var A := Users(leaves, r);
    var B := (A - {(l, t)}) + (if v == Some(r) then {(l, t)} else {});
    assert Users(WithRule(leaves, l, t, v), r) == B;
    assert leaves[l].rules[t] == Some(r) <==> (l, t) in A;
  }

  /** Leaves with the same rules have the same users, whatever their own counts. */
  lemma UsersSame(leaves: map<LeafId, Leaf>, leaves': map<LeafId, Leaf>, r: RuleId)
    requires leaves'.Keys == leaves.Keys && forall l :: l in leaves ==> leaves'[l].rules == leaves[l].rules
    ensures Users(leaves', r) == Users(leaves, r)
  {
  }

  predicate NoRules(rules: seq<Option<RuleId>>) {
    forall t :: 0 <= t < |rules| ==> rules[t] == None
  }

  lemma UsersAdd(leaves: map<LeafId, Leaf>, l: LeafId, lf: Leaf, r: RuleId)
    requires l !in leaves && NoRules(lf.rules)
    ensures Users(leaves[l := lf], r) == Users(leaves, r)
  {
  }

  lemma UsersDel(leaves: map<LeafId, Leaf>, l: LeafId, r: RuleId)
    requires l in leaves && NoRules(leaves[l].rules)
    ensures Users(leaves - {l}, r) == Users(leaves, r)
  {
  }

  lemma IsUser(leaves: map<LeafId, Leaf>, l: LeafId, t: int, r: RuleId)
    requires l in leaves && 0 <= t < |leaves[l].rules| && leaves[l].rules[t] == Some(r)
    ensures |Users(leaves, r)| >= 1
  {
    assert (l, t) in Users(leaves, r);
    assert {(l, t)} <= Users(leaves, r);
    SubsetSize({(l, t)}, Users(leaves, r));
  }

  /** A rule with one reference, owned by a leaf, is in no other place. */
  lemma SoleUser(leaves: map<LeafId, Leaf>, l: LeafId, t: int, r: RuleId)
    requires l in leaves && 0 <= t < |leaves[l].rules| && leaves[l].rules[t] == Some(r) && |Users(leaves, r)| <= 1
    ensures forall l', t' :: l' in leaves && 0 <= t' < |leaves[l'].rules| && leaves[l'].rules[t'] == Some(r) ==> l' == l && t' == t
  {
    var A := Users(leaves, r);
    assert (l, t) in A;
    assert |A - {(l, t)}| == 0;
    forall l', t' | l' in leaves && 0 <= t' < |leaves[l'].rules| && leaves[l'].rules[t'] == Some(r) ensures l' == l && t' == t {
      assert (l', t') in A && (l', t') !in A - {(l, t)};
    }
  }

  // ---- What a leaf says ----

  datatype LeafVal = LeafVal(cap: nat, entries: map<int, Entry>)

  function Val(lf: Leaf, rules: map<RuleId, Rule>): LeafVal {
    LeafVal(|lf.rules|, map t | 0 <= t < |lf.rules| && lf.rules[t].Some? && lf.rules[t].value in rules :: rules[lf.rules[t].value].entry)
  }

  function Views(leaves: map<LeafId, Leaf>, rules: map<RuleId, Rule>): map<LeafId, LeafVal> {
    map l | l in leaves :: Val(leaves[l], rules)
  }

  lemma ViewsLeaf(leaves: map<LeafId, Leaf>, rules: map<RuleId, Rule>, l: LeafId, lf: Leaf)
    ensures Views(leaves[l := lf], rules) == Views(leaves, rules)[l := Val(lf, rules)]
  {
    hide Val;
  }

  lemma ValSet(lf: Leaf, rules: map<RuleId, Rule>, t: int, r: RuleId)
    requires 0 <= t < |lf.rules| && r in rules
    ensures Val(lf.(rules := lf.rules[t := Some(r)]), rules).entries == Val(lf, rules).entries[t := rules[r].entry]
  {
  }

  lemma ValUnset(lf: Leaf, rules: map<RuleId, Rule>, t: int)
    requires 0 <= t < |lf.rules|
    ensures Val(lf.(rules := lf.rules[t := None]), rules).entries == Val(lf, rules).entries - {t}
  {
    var E, E' := Val(lf, rules).entries, Val(lf.(rules := lf.rules[t := None]), rules).entries;
    assert forall i :: i in E' <==> i in E && i != t;
    assert forall i :: i in E' ==> E'[i] == E[i];
  }

  lemma ViewsSet(leaves: map<LeafId, Leaf>, rules: map<RuleId, Rule>, l: LeafId, t: int, r: RuleId)
    requires l in leaves && 0 <= t < |leaves[l].rules| && r in rules
    ensures var V := Views(leaves, rules);
            Views(WithRule(leaves, l, t, Some(r)), rules) == V[l := V[l].(entries := V[l].entries[t := rules[r].entry])]
  {
    ValSet(leaves[l], rules, t, r);
    ViewsLeaf(leaves, rules, l, leaves[l].(rules := leaves[l].rules[t := Some(r)]));
  }

  lemma ViewsUnset(leaves: map<LeafId, Leaf>, rules: map<RuleId, Rule>, l: LeafId, t: int)
    requires l in leaves && 0 <= t < |leaves[l].rules|
    ensures var V := Views(leaves, rules);
            Views(WithRule(leaves, l, t, None), rules) == V[l := V[l].(entries := V[l].entries - {t})]
  {
    ValUnset(leaves[l], rules, t);
    ViewsLeaf(leaves, rules, l, leaves[l].(rules := leaves[l].rules[t := None]));
  }

  /** Views look at slots and entries only. */
  lemma ViewsSame(leaves: map<LeafId, Leaf>, leaves': map<LeafId, Leaf>, rules: map<RuleId, Rule>, rules': map<RuleId, Rule>)
    requires leaves'.Keys == leaves.Keys && forall l :: l in leaves ==> leaves'[l].rules == leaves[l].rules
    requires forall l, t :: l in leaves && 0 <= t < |leaves[l].rules| && leaves[l].rules[t].Some? ==>
               SameRule(rules, rules', leaves[l].rules[t].value)
    ensures Views(leaves', rules') == Views(leaves, rules)
  {
    forall l | l in leaves ensures Val(leaves'[l], rules') == Val(leaves[l], rules) {
      assert forall t :: 0 <= t < |leaves[l].rules| && leaves[l].rules[t].Some? ==> SameRule(rules, rules', leaves[l].rules[t].value);
    }
  }

  predicate SameRule(rules: map<RuleId, Rule>, rules': map<RuleId, Rule>, r: RuleId) {
    (r in rules <==> r in rules') && (r in rules ==> rules'[r].entry == rules[r].entry)
  }

  /** Editing a rule used in one place changes one entry of one leaf. */
  lemma ViewsEdit(leaves: map<LeafId, Leaf>, rules: map<RuleId, Rule>, l: LeafId, t: int, r: RuleId, e: Entry)
    requires l in leaves && 0 <= t < |leaves[l].rules| && leaves[l].rules[t] == Some(r) && r in rules
    requires forall l', t' :: l' in leaves && 0 <= t' < |leaves[l'].rules| && leaves[l'].rules[t'] == Some(r) ==> l' == l && t' == t
    ensures var V := Views(leaves, rules);
            Views(leaves, rules[r := rules[r].(entry := e)]) == V[l := V[l].(entries := V[l].entries[t := e])]
  {
    var rules' := rules[r := rules[r].(entry := e)];
    var V := Views(leaves, rules);
    var W := V[l := V[l].(entries := V[l].entries[t := e])];
    forall x | x in leaves ensures Val(leaves[x], rules') == W[x] {
      if x == l {
        assert Val(leaves[l], rules').entries == V[l].entries[t := e];
      } else {
        assert Val(leaves[x], rules').entries == V[x].entries;
      }
    }
  }

  lemma ViewsAdd(leaves: map<LeafId, Leaf>, rules: map<RuleId, Rule>, l: LeafId, lf: Leaf)
    requires NoRules(lf.rules)
    ensures Views(leaves[l := lf], rules) == Views(leaves, rules)[l := LeafVal(|lf.rules|, map[])]
  {
    assert Val(lf, rules).entries == map[];
  }

  lemma ViewsDel(leaves: map<LeafId, Leaf>, rules: map<RuleId, Rule>, l: LeafId)
    ensures Views(leaves - {l}, rules) == Views(leaves, rules) - {l}
  {
  }
}
