/**
 * The domain rule store (src/dns_conf/domain_rule.c, src/dns_conf/dns_conf_group.c): copy-on-write
 * leaves shared between the trees of groups and a pool of flag leaves. View is what lookups see, and
 * every operation is proved to act on it as on a plain map.
 */
module RuleStore {
  import opened Bytes
  import opened NameDecode
  import opened SuffixIndex
  import opened RuleCounts
  import opened RuleSpec
  import opened RuleSteps
  import opened RuleFrames

  class Store {
    var slots: map<Slot, LeafId>
    var leaves: map<LeafId, Leaf>
    var rules: map<RuleId, Rule>
    var nextLeaf: nat
    var nextRule: nat
    ghost var temp: multiset<LeafId>
    ghost var handles: multiset<RuleId>
    ghost var freed: multiset<LeafId>

    ghost function S(): State
      reads this
    {
      State(slots, leaves, rules, temp, handles)
    }

    ghost predicate Ok()
      reads this
    {
      Counted(S()) && Ids(leaves.Keys, rules.Keys, nextLeaf, nextRule, freed)
    }

    ghost predicate Valid()
      reads this
    {
      Ok() && Live(leaves) && temp == multiset{}
    }

    ghost function View(): View
      reads this
    {
      TreeView(slots, V(S()))
    }

    constructor ()
      ensures Valid() && View() == map[] && handles == multiset{} && slots == map[]
    {
      slots, leaves, rules, nextLeaf, nextRule := map[], map[], map[], 0, 0;
      temp, handles, freed := multiset{}, multiset{}, multiset{};
    }

    // ---- Steps ----

    method AllocLeaf(cap: nat) returns (l: LeafId)
      requires Ok() && 1 <= cap <= RULE_MAX
      modifies `leaves, `nextLeaf, `temp
      ensures Ok() && l !in old(leaves) && S() == Alloc(old(S()), l, cap)
    {
      hide Counted, Views, Ids;
      l := nextLeaf;
      IdsNext(leaves.Keys, rules.Keys, nextLeaf, nextRule, freed);
      AllocKeeps(S(), l, cap);
      leaves, nextLeaf, temp := leaves[l := Leaf(1, Nones(cap))], nextLeaf + 1, temp + multiset{l};
      assert leaves.Keys == old(leaves.Keys) + {l};
    }

    method IncrementLeaf(l: LeafId)
      requires Ok() && l in leaves
      modifies `leaves, `temp
      ensures Ok() && S() == IncLeaf(old(S()), l)
    {
      hide Counted, Views, Ids;
      IncLeafKeeps(S(), l);
      leaves, temp := Recount(leaves, l, leaves[l].refcnt + 1), temp + multiset{l};
      assert leaves.Keys == old(leaves.Keys);
    }

    /** art_insert: the tree takes the reference over, and hands out the one it held. */
    method ArtInsert(x: Slot, l: LeafId) returns (was: Option<LeafId>)
      requires Ok() && l in temp && x.Tree?
      modifies `slots, `temp
      ensures Ok() && S() == SetSlot(old(S()), x, l)
      ensures was == if x in old(slots) then Some(old(slots)[x]) else None
    {
      hide Counted, Views, Ids;
      SetSlotKeeps(S(), x, l);
      was := if x in slots then Some(slots[x]) else None;
      slots, temp := slots[x := l], SetSlot(S(), x, l).temp;
    }

    method PoolPut(x: Slot, l: LeafId)
      requires Ok() && l in temp && x.Pool? && x.i < POOL_SIZE && x !in slots && l in leaves && FlagsLeaf(leaves[l])
      modifies `slots, `temp
      ensures Ok() && S() == SetSlot(old(S()), x, l)
    {
      hide Counted, Views, Ids;
      SetSlotKeeps(S(), x, l);
      slots, temp := slots[x := l], SetSlot(S(), x, l).temp;
    }

    method TakeSlot(x: Slot) returns (l: LeafId)
      requires Ok() && x in slots
      modifies `slots, `temp
      ensures Ok() && S() == ClearSlot(old(S()), x) && l == old(slots)[x]
    {
      hide Counted, Views, Ids;
      ClearSlotKeeps(S(), x);
      l := slots[x];
      slots, temp := slots - {x}, temp + multiset{l};
    }

    method SetRule(l: LeafId, t: int, r: RuleId)
      requires Ok() && l in leaves && 0 <= t < |leaves[l].rules| && leaves[l].rules[t] == None && r in handles && Fits(rules, r, t)
      modifies `leaves, `handles
      ensures Ok() && S() == StoreRule(old(S()), l, t, r)
    {
      hide Counted, Views, Ids;
      StoreRuleKeeps(S(), l, t, r);
      leaves, handles := WithRule(leaves, l, t, Some(r)), handles - multiset{r};
      assert leaves.Keys == old(leaves.Keys);
    }

    method ClearRule(l: LeafId, t: int) returns (r: RuleId)
      requires Ok() && l in leaves && 0 <= t < |leaves[l].rules| && leaves[l].rules[t].Some?
      requires forall x :: x in slots && x.Pool? ==> slots[x] != l
      modifies `leaves, `handles
      ensures Ok() && r == old(leaves)[l].rules[t].value && S() == TakeRule(old(S()), l, t)
    {
      hide Counted, Views, Ids;
      TakeRuleKeeps(S(), l, t);
      r := leaves[l].rules[t].value;
      leaves, handles := WithRule(leaves, l, t, None), handles + multiset{r};
      assert leaves.Keys == old(leaves.Keys);
    }

    /** _new_dns_rule with its fields filled in, and _dns_rule_clone of a rule with that entry. */
    method Create(e: Entry) returns (r: RuleId)
      requires Ok()
      modifies `rules, `handles, `nextRule
      ensures Ok() && r !in old(rules) && S() == NewRule(old(S()), r, e)
    {
      hide Counted, Views, Ids;
      r := nextRule;
      IdsNext(leaves.Keys, rules.Keys, nextLeaf, nextRule, freed);
      NewRuleKeeps(S(), r, e);
      rules, nextRule, handles := rules[r := Rule(1, e)], nextRule + 1, handles + multiset{r};
      assert rules.Keys == old(rules.Keys) + {r};
    }

    /** _dns_rule_get. */
    method Get(r: RuleId)
      requires Ok() && r in rules
      modifies `rules, `handles
      ensures Ok() && S() == GetRule(old(S()), r)
    {
      hide Counted, Views, Ids;
      GetRuleKeeps(S(), r);
      rules, handles := rules[r := rules[r].(refcnt := rules[r].refcnt + 1)], handles + multiset{r};
      assert rules.Keys == old(rules.Keys);
    }

    /** _dns_rule_put. */
    method PutBack(r: RuleId)
      requires Ok() && r in handles
      modifies `rules, `handles
      ensures r in old(rules) && old(rules)[r].refcnt > 0
      ensures Ok() && S() == PutRule(old(S()), r)
    {
      hide Counted, Views, Ids;
      PutRuleKeeps(S(), r);
      IdsLess(leaves.Keys, rules.Keys, nextLeaf, nextRule, freed, 0, r);
      var n := rules[r].refcnt - 1;
      rules, handles := if n == 0 then rules - {r} else rules[r := rules[r].(refcnt := n)], handles - multiset{r};
      assert rules.Keys == if n == 0 then old(rules.Keys) - {r} else old(rules.Keys);
    }
  
    // ---- Freeing a reference to a leaf ----

    /** The loop of _config_domain_rule_free over the slots of a dead leaf. */
    method EmptyLeaf(l: LeafId)
      requires Ok() && l in leaves && leaves[l].refcnt == 0
      modifies `leaves, `rules, `handles
      ensures Ok() && OnlyEmptied(old(S()), S(), l) && NoRules(leaves[l].rules)
    {
      hide Counted, Views, OnlyEmptied, Ids;
      NotPooled(S(), l);
      OnlyEmptiedSelf(S(), l);
      var i := 0;
      var cap := |leaves[l].rules|;
      while i < cap
        invariant 0 <= i <= cap && l in leaves && |leaves[l].rules| == cap && slots == old(slots)
        invariant Ok() && OnlyEmptied(old(S()), S(), l)
        invariant forall t :: 0 <= t < i ==> leaves[l].rules[t] == None
      {
        if leaves[l].rules[i].Some? {
          ghost var s := S();
          var r := ClearRule(l, i);
          PutBack(r);
          OnlyEmptiedStep(old(S()), s, l, i);
        }
        i := i + 1;
      }
    }

    /** _config_domain_rule_free on a reference the caller holds. */
    method FreeLeaf(l: LeafId)
      requires Ok() && Live(leaves) && l in temp && l in leaves
      modifies `leaves, `rules, `handles, `temp, `freed
      ensures Ok() && Live(leaves) && Released(old(S()), S(), l)
    {
      hide Counted, Views, OnlyEmptied, Released, Live, Ids, NoRules;
      DecLeafKeeps(S(), l);
      ghost var s := S();
      leaves, temp := Recount(leaves, l, leaves[l].refcnt - 1), temp - multiset{l};
      assert leaves.Keys == old(leaves.Keys);
      if leaves[l].refcnt > 0 {
        ReleasedOne(s, l);
        return;
      }
      EmptyLeaf(l);
      StillThere(DecLeaf(s, l), S(), l);
      ReleasedLast(s, S(), l);
      IdsLess(leaves.Keys, rules.Keys, nextLeaf, nextRule, freed, l, 0);
      leaves, freed := leaves - {l}, freed + multiset{l};
    }

    // ---- A private leaf with room ----

    /** The copying loop of _ensure_domain_rule_capacity. */
    method CopyRules(orig: LeafId, l: LeafId)
      requires Ok() && orig in leaves && l in leaves && l != orig && NoRules(leaves[l].rules)
      requires |leaves[orig].rules| <= |leaves[l].rules|
      modifies `leaves, `rules, `handles
      ensures Ok() && Copied(old(S()), S(), orig, l, |old(leaves)[orig].rules|)
    {
      hide Counted, Views, Ids, Copied;
      CopiedNone(S(), orig, l);
      var i := 0;
      while i < |leaves[orig].rules|
        invariant orig in leaves && leaves[orig] == old(leaves)[orig] && 0 <= i <= |leaves[orig].rules|
        invariant l in leaves && |leaves[orig].rules| <= |leaves[l].rules|
        invariant Ok() && Copied(old(S()), S(), orig, l, i)
      {
        ghost var s := S();
        CopiedStep(old(S()), s, orig, l, i);
        if leaves[orig].rules[i].Some? {
          var r := leaves[orig].rules[i].value;
          Get(r);
          SetRule(l, i, r);
        }
        i := i + 1;
      }
    }

    /** _ensure_domain_rule_capacity: allocation is taken to succeed. */
    method EnsureCapacity(orig: Option<LeafId>, t: int) returns (n: Option<LeafId>)
      requires Ok() && Live(leaves) && (orig.Some? ==> orig.value in leaves)
      modifies `leaves, `rules, `handles, `temp, `nextLeaf
      ensures Ok() && Live(leaves) && (n.Some? <==> 0 <= t < RULE_MAX)
      ensures n.None? ==> S() == old(S())
      ensures n.Some? ==> Private(old(S()), S(), orig, n.value, t)
    {
      hide Counted, Views, Ids, Copied, Live;
      if t >= RULE_MAX || t < 0 {
        return None;
      }
      if orig.None? {
        var l := AllocLeaf(RequiredCapacity(t, 0));
        PrivateNew(old(S()), l, t);
        return Some(l);
      }
      LiveFit(S(), orig.value);
      if t < |leaves[orig.value].rules| && leaves[orig.value].refcnt == 1 {
        return orig;
      }
      var cap := if t < |leaves[orig.value].rules| then |leaves[orig.value].rules| else RequiredCapacity(t, |leaves[orig.value].rules|);
      var l := AllocLeaf(cap);
      ghost var s := S();
      CopyRules(orig.value, l);
      PrivateCopy(old(S()), s, S(), orig.value, l, t, cap);
      n := Some(l);
    }

    // ---- Changing a private leaf ----

    /** The rule in slot t of leaf l is released, and the slot is free. */
    method ReleaseRule(l: LeafId, t: int)
      requires Ok() && l in leaves && 0 <= t < |leaves[l].rules| && leaves[l].rules[t].Some?
      requires forall x :: x in slots && x.Pool? ==> slots[x] != l
      modifies `leaves, `rules, `handles
      ensures Ok() && handles == old(handles) && leaves == WithRule(old(leaves), l, t, None)
      ensures l in old(V(S())) && Upd(old(S()), S(), l, old(V(S()))[l].entries - {t})
      ensures forall x :: x in old(rules) && old(leaves)[l].rules[t] != Some(x) ==> x in rules && rules[x] == old(rules)[x]
      ensures forall x :: x in rules ==> x in old(rules) && rules[x].entry == old(rules)[x].entry
      ensures forall x :: x in rules ==> rules[x].refcnt <= old(rules)[x].refcnt
    {
      hide Counted, V, Ids, Upd;
      ghost var s0 := S();
      UpdTake(s0, l, t);
      var q := ClearRule(l, t);
      ghost var s1 := S();
      UpdLive(s0, s1, l, V(s0)[l].entries - {t});
      PutBack(q);
      UpdPut(s1, l, q);
      UpdTrans(s0, s1, S(), l, V(s0)[l].entries - {t}, V(s0)[l].entries - {t});
      assert handles == s0.handles;
    }

    /** A new flags rule for leaf l. */
    method AddFlags(l: LeafId) returns (r: RuleId)
      requires Ok() && l in leaves && 0 < |leaves[l].rules| && leaves[l].rules[FLAGS].None?
      modifies `leaves, `rules, `handles, `nextRule
      ensures Ok() && OwnsFlags(S(), l, r) && handles == old(handles) && rules[r].entry == Entry(Flags(0, 0), false, false)
      ensures l in old(V(S())) && Upd(old(S()), S(), l, old(V(S()))[l].entries[FLAGS := rules[r].entry])
    {
      hide Counted, V, Ids, Upd;
      var e := Entry(Flags(0, 0), false, false);
      ghost var s0 := S();
      r := Create(e);
      UpdNew(s0, l, r, e);
      UpdLive(s0, S(), l, V(s0)[l].entries);
      ghost var s1 := S();
      UpdStore(s1, l, FLAGS, r);
      SetRule(l, FLAGS, r);
      UpdTrans(s0, s1, S(), l, V(s0)[l].entries, V(s0)[l].entries[FLAGS := e]);
      assert handles == s0.handles;
    }

    /** A copy of a flags rule that other leaves use too. */
    method CloneFlags(l: LeafId) returns (c: RuleId)
      requires Ok() && l in leaves && 0 < |leaves[l].rules| && leaves[l].rules[FLAGS].Some?
      requires forall x :: x in slots && x.Pool? ==> slots[x] != l
      modifies `leaves, `rules, `handles, `nextRule
      ensures Ok() && OwnsFlags(S(), l, c) && handles == old(handles)
      ensures l in old(V(S())) && FLAGS in old(V(S()))[l].entries && rules[c].entry == old(V(S()))[l].entries[FLAGS]
      ensures Upd(old(S()), S(), l, old(V(S()))[l].entries[FLAGS := rules[c].entry])
    {
      hide Counted, V, Ids, Upd;
      ghost var s0 := S();
      EntryOf(s0, l, FLAGS);
      ghost var E := V(s0)[l].entries;
      var e := rules[leaves[l].rules[FLAGS].value].entry;
      c := Create(e);
      ghost var s1 := S();
      UpdNew(s0, l, c, e);
      UpdLive(s0, s1, l, E);
      ReleaseRule(l, FLAGS);
      ghost var s2 := S();
      UpdLive(s1, s2, l, E - {FLAGS});
      UpdStore(s2, l, FLAGS, c);
      SetRule(l, FLAGS, c);
      ReplacedEntry(s0, s1, s2, S(), l, E, e);
      assert handles == s0.handles;
    }

    /** Leaf l gets a flags rule of its own. */
    method OwnFlags(l: LeafId) returns (r: RuleId)
      requires Ok() && l in leaves && 0 < |leaves[l].rules| && forall x :: x in slots && x.Pool? ==> slots[x] != l
      modifies `leaves, `rules, `handles, `nextRule
      ensures Ok() && OwnsFlags(S(), l, r) && handles == old(handles)
      ensures l in old(V(S())) && Upd(old(S()), S(), l, old(V(S()))[l].entries[FLAGS := rules[r].entry])
      ensures rules[r].entry.payload == FlagsOf(old(V(S()))[l].entries)
    {
      hide Counted, V, Ids, Upd;
      ghost var s0 := S();
      EntryOf(s0, l, FLAGS);
      if leaves[l].rules[FLAGS].None? {
        r := AddFlags(l);
        return;
      }
      r := leaves[l].rules[FLAGS].value;
      if rules[r].refcnt > 1 {
        r := CloneFlags(l);
      } else {
        UpdSelf(s0, l);
        assert V(s0)[l].entries[FLAGS := rules[r].entry] == V(s0)[l].entries;
        RuleAlive(s0, r);
      }
    }

    /** The flags of a private leaf, when _config_domain_rule_flag_set has something to change. */
    method EditFlags(l: LeafId, flag: bv32, clear: bool, sub: bool, root: bool)
      requires Ok() && l in leaves && 0 < |leaves[l].rules| && forall x :: x in slots && x.Pool? ==> slots[x] != l
      modifies `leaves, `rules, `handles, `nextRule
      ensures Ok() && l in leaves && 0 < |leaves[l].rules| && leaves[l].rules[FLAGS].Some? && handles == old(handles)
      ensures l in old(V(S()))
      ensures Upd(old(S()), S(), l, old(V(S()))[l].entries[FLAGS := Flagged(old(V(S()))[l].entries, flag, clear, sub, root)])
    {
      hide Counted, V, Ids, Upd, NewFlags, FlagsOf;
      ghost var s0 := S();
      var r := OwnFlags(l);
      ghost var s1 := S();
      ghost var E := V(s0)[l].entries;
      var e := NewFlags(rules[r].entry.payload, flag, clear, sub, root);
      UpdEdit(s1, l, FLAGS, r, e);
      SameKeys(s1, r, e);
      UpdLive(s0, s1, l, E[FLAGS := s1.rules[r].entry]);
      rules := rules[r := rules[r].(entry := e)];
      assert E[FLAGS := s1.rules[r].entry][FLAGS := e] == E[FLAGS := e];
      UpdTrans(s0, s1, S(), l, E[FLAGS := s1.rules[r].entry], E[FLAGS := e]);
    }

    /** Slot t of leaf l is free afterwards. */
    method Vacate(l: LeafId, t: int)
      requires Ok() && l in leaves && 0 <= t < |leaves[l].rules| && forall x :: x in slots && x.Pool? ==> slots[x] != l
      modifies `leaves, `rules, `handles
      ensures Ok() && handles == old(handles) && leaves == WithRule(old(leaves), l, t, None)
      ensures l in old(V(S())) && Upd(old(S()), S(), l, old(V(S()))[l].entries - {t})
      ensures forall x :: x in rules ==> x in old(rules) && rules[x].entry == old(rules)[x].entry && rules[x].refcnt <= old(rules)[x].refcnt
    {
      hide Counted, V, Ids, Upd;
      if leaves[l].rules[t].Some? {
        ReleaseRule(l, t);
      } else {
        EntryOf(S(), l, t);
        UpdSelf(S(), l);
        assert V(S())[l].entries - {t} == V(S())[l].entries;
        assert leaves[l].rules[t := None] == leaves[l].rules;
        assert WithRule(leaves, l, t, None) == leaves;
      }
    }

    /** The marks of a rule that is in no leaf yet, or has them already. */
    method SetMarks(p: RuleId, sub: bool, root: bool, ghost l: LeafId)
      requires Ok() && p in handles && p in rules && l in leaves
      requires rules[p].refcnt == 1 || (rules[p].entry.sub == sub && rules[p].entry.root == root)
      modifies `rules
      ensures Ok() && rules == old(rules)[p := old(rules)[p].(entry := Entry(old(rules)[p].entry.payload, sub, root))]
      ensures l in old(V(S())) && Upd(old(S()), S(), l, old(V(S()))[l].entries)
    {
      hide Counted, V, Ids, Upd;
      UpdMarks(S(), l, p, sub, root);
      SameKeys(S(), p, rules[p].entry.(sub := sub, root := root));
      rules := rules[p := rules[p].(entry := rules[p].entry.(sub := sub, root := root))];
    }

    /** The rule of _config_domain_rule_add goes into slot t of a private leaf. */
    method Install(l: LeafId, t: int, p: RuleId, cloned: bool, sub: bool, root: bool)
      requires Ok() && l in leaves && 0 <= t < |leaves[l].rules| && forall x :: x in slots && x.Pool? ==> slots[x] != l
      requires p in handles && Fits(rules, p, t)
      requires rules[p].refcnt == 1 || (rules[p].entry.sub == sub && rules[p].entry.root == root)
      modifies `leaves, `rules, `handles
      ensures Ok() && handles == old(handles) - (if cloned then multiset{p} else multiset{})
      ensures l in old(V(S())) && p in old(rules)
      ensures Upd(old(S()), S(), l, old(V(S()))[l].entries[t := Entry(old(rules)[p].entry.payload, sub, root)])
    {
      hide Counted, V, Ids, Upd;
      ghost var s0 := S();
      UpdSelf(s0, l);
      ghost var E, e := V(s0)[l].entries, Entry(rules[p].entry.payload, sub, root);
      Prepare(l, t, p, sub, root);
      if !cloned {
        ghost var s2 := S();
        UpdLive(s0, s2, l, E - {t});
        UpdGet(s2, l, p);
        Get(p);
        UpdTrans(s0, s2, S(), l, E - {t}, E - {t});
      }
      Finish(s0, l, t, p, e, E);
      assert handles == s0.handles - (if cloned then multiset{p} else multiset{});
    }

    /** Install up to the point where the rule is written. */
    method Prepare(l: LeafId, t: int, p: RuleId, sub: bool, root: bool)
      requires Ok() && l in leaves && 0 <= t < |leaves[l].rules| && forall x :: x in slots && x.Pool? ==> slots[x] != l
      requires p in handles && p in rules
      requires rules[p].refcnt == 1 || (rules[p].entry.sub == sub && rules[p].entry.root == root)
      modifies `leaves, `rules, `handles
      ensures Ok() && handles == old(handles) && leaves == WithRule(old(leaves), l, t, None)
      ensures l in old(V(S())) && Upd(old(S()), S(), l, old(V(S()))[l].entries - {t})
      ensures p in rules && rules[p].entry == Entry(old(rules)[p].entry.payload, sub, root)
    {
      hide Counted, V, Ids, Upd;
      ghost var s0 := S();
      Vacate(l, t);
      ghost var s1 := S();
      UpdLive(s0, s1, l, V(s0)[l].entries - {t});
      HandleAlive(s1, p);
      SetMarks(p, sub, root, l);
      UpdTrans(s0, s1, S(), l, V(s0)[l].entries - {t}, V(s0)[l].entries - {t});
    }

    /** The last assignment of Install. */
    method Finish(ghost s0: State, l: LeafId, t: int, p: RuleId, ghost e: Entry, ghost E: map<int, Entry>)
      requires Ok() && l in leaves && 0 <= t < |leaves[l].rules| && leaves[l].rules[t] == None
      requires p in handles && p in rules && rules[p].entry == e && (e.payload.Flags? <==> t == FLAGS)
      requires Upd(s0, S(), l, E - {t}) && s0.handles <= handles
      modifies `leaves, `handles
      ensures Ok() && handles == old(handles) - multiset{p} && Upd(s0, S(), l, E[t := e])
    {
      hide Counted, V, Ids, Upd;
      ghost var s3 := S();
      UpdLive(s0, s3, l, E - {t});
      UpdStore(s3, l, t, p);
      SetRule(l, t, p);
      assert (E - {t})[t := e] == E[t := e];
      UpdTrans(s0, s3, S(), l, E - {t}, E[t := e]);
    }

    method PlaceRule(l: LeafId, t: int, r: RuleId, sub: bool, root: bool)
      requires Ok() && l in leaves && 0 <= t < |leaves[l].rules| && forall x :: x in slots && x.Pool? ==> slots[x] != l
      requires r in handles && Fits(rules, r, t)
      modifies `leaves, `rules, `handles, `nextRule
      ensures Ok() && handles == old(handles) && l in old(V(S())) && r in old(rules)
      ensures Upd(old(S()), S(), l, old(V(S()))[l].entries[t := Entry(old(rules)[r].entry.payload, sub, root)])
    {
      hide Counted, V, Ids, Upd;
      ghost var s0 := S();
      var e := rules[r].entry;
      HandleAlive(s0, r);
      if rules[r].refcnt > 1 && (e.sub != sub || e.root != root || ListValued(t)) {
        PlaceClone(l, t, e, sub, root);
      } else {
        Install(l, t, r, false, sub, root);
        assert handles == s0.handles;
      }
    }

    /** A copy of a rule with entry e goes into slot t of a private leaf. */
    method PlaceClone(l: LeafId, t: int, e: Entry, sub: bool, root: bool)
      requires Ok() && l in leaves && 0 <= t < |leaves[l].rules| && forall x :: x in slots && x.Pool? ==> slots[x] != l
      requires e.payload.Flags? <==> t == FLAGS
      modifies `leaves, `rules, `handles, `nextRule
      ensures Ok() && handles == old(handles) && l in old(V(S()))
      ensures Upd(old(S()), S(), l, old(V(S()))[l].entries[t := Entry(e.payload, sub, root)])
    {
      hide Counted, V, Ids, Upd;
      ghost var s0 := S();
      var c := Create(e);
      ghost var s1 := S();
      UpdNew(s0, l, c, e);
      UpdLive(s0, s1, l, V(s0)[l].entries);
      Install(l, t, c, true, sub, root);
      UpdTrans(s0, s1, S(), l, V(s0)[l].entries, V(s0)[l].entries[t := Entry(e.payload, sub, root)]);
      assert handles == s0.handles;
    }

    // ---- Sharing ----

    /** A leaf of flags goes into an empty bucket. */
    method PoolAdd(x: Slot, l: LeafId)
      requires Ok() && l in leaves && FlagsLeaf(leaves[l]) && x.Pool? && x.i < POOL_SIZE && x !in slots
      modifies `slots, `leaves, `temp
      ensures Ok() && Interned(old(S()), S(), l, l)
    {
      hide Counted, V, Ids;
      ghost var s := S();
      IncLeafKeeps(s, l);
      InViews(s, l);
      IncrementLeaf(l);
      SetSlotKeeps(S(), x, l);
      PoolPut(x, l);
      assert temp == s.temp;
    }

    /** One more reference to a leaf of the pool. */
    method Share(m: LeafId)
      requires Ok() && m in leaves
      modifies `leaves, `temp
      ensures Ok() && leaves.Keys == old(leaves).Keys && temp == old(temp) + multiset{m} && V(S()) == old(V(S()))
      ensures forall z :: z in old(leaves) ==> leaves[z].refcnt >= old(leaves)[z].refcnt
    {
      hide Counted, V, Ids;
      IncLeafKeeps(S(), m);
      IncrementLeaf(m);
    }

    /** _domain_rule_intern_flags. */
    method Intern(l: LeafId) returns (m: LeafId)
      requires Ok() && l in leaves && 0 < |leaves[l].rules|
      modifies `slots, `leaves, `temp
      ensures Ok() && Interned(old(S()), S(), l, m)
    {
      hide Counted, V, Ids, Bucket;
      EntryOf(S(), l, FLAGS);
      if |leaves[l].rules| != 1 || leaves[l].rules[FLAGS].None? {
        return l;
      }
      var e := rules[leaves[l].rules[FLAGS].value].entry;
      var i := 0;
      while i < POOL_PROBES
        invariant 0 <= i <= POOL_PROBES && S() == old(S()) && Ok()
      {
        var x := Pool(Bucket(e, i));
        if x in slots && slots[x] == l {
          return l;
        }
        if x !in slots {
          PoolAdd(x, l);
          return l;
        }
        PoolLeaf(S(), x);
        var other := slots[x];
        if rules[leaves[other].rules[FLAGS].value].entry == e {
          SameFlags(S(), l, other);
          Share(other);
          return other;
        }
        i := i + 1;
      }
      m := l;
    }

    /** The end of an operation: the tree gets the new leaf, and the one it held is released. */
    method Publish(x: Slot, add: Option<LeafId>)
      requires Ok() && Live(leaves) && x.Tree? && (add.Some? ==> add.value in temp)
      modifies `slots, `leaves, `rules, `handles, `temp, `freed
      ensures Ok() && Live(leaves) && handles == old(handles) && Shrinks(old(V(S())), V(S())) && HandlesKept(old(S()), S())
      ensures slots == if add.Some? then old(slots)[x := add.value] else old(slots)
      ensures temp == if add.Some? then old(temp) - multiset{add.value} else old(temp)
    {
      hide Counted, V, Ids, Released, Live, Shrinks, HandlesKept;
      ghost var s0 := S();
      HandlesKeptSelf(s0);
      ShrinksSelf(V(s0));
      if add.Some? {
        SetSlotKeeps(s0, x, add.value);
        var was := ArtInsert(x, add.value);
        ghost var s1 := S();
        SlotHandles(s0, x, add.value);
        if was.Some? {
          TempExists(s1, was.value);
          FreeLeaf(was.value);
          CountedHandles(S());
          ReleasedShrinks(s1, S(), was.value);
          HandlesKeptTrans(s0, s1, S());
        }
        TempBack(s0.temp, add.value, was);
      }
    }

    // ---- The operations ----

    /** The end of an operation that prepared leaf l: now lookups see it. */
    method Commit(x: Slot, add: Option<LeafId>, ghost s0: State, ghost l: LeafId, ghost v: map<LeafId, LeafVal>)
      requires Ok() && Live(leaves) && x.Tree? && Counted(s0) && s0.temp == multiset{} && Changed(s0, S(), x, l, v, add)
      modifies `slots, `leaves, `rules, `handles, `temp, `freed
      ensures Valid() && Elsewhere(s0, S()) && l in v && View() == TreeView(s0.slots, V(s0))[x := v[l].entries]
      ensures slots == if add.Some? then old(slots)[x := add.value] else old(slots)
    {
      hide Counted, V, Ids, Live, HandlesKept, PoolKept, Shrinks, TreeView;
      ghost var s := S();
      Publish(x, add);
      ShrinksTrans(v, V(s), V(S()));
      HandlesKeptTrans(s0, s, S());
      assert add.Some? ==> multiset{} + multiset{add.value} - multiset{add.value} == multiset{};
      ViewSet(s0, v, S(), x, l);
    }

    /** The leaf with the flags set, shared if the pool has it. */
    method FlagLeaf(x: Slot, orig: Option<LeafId>, flag: bv32, clear: bool, sub: bool, root: bool)
      returns (add: Option<LeafId>, ghost l: LeafId, ghost v: map<LeafId, LeafVal>)
      requires Valid() && x.Tree? && orig == if x in slots then Some(slots[x]) else None
      modifies this
      ensures Ok() && Live(leaves) && Changed(old(S()), S(), x, l, v, add) && l in v
      ensures var E := EntriesAt(old(View()), x); v[l].entries == E[FLAGS := Flagged(E, flag, clear, sub, root)]
    {
      hide Counted, V, Ids, Upd, TreeView, Live, Private, Interned, Changed, NewFlags, FlagsOf, Released;
      ghost var s0 := S();
      SlotLeaves(s0);
      var n := EnsureCapacity(orig, FLAGS);
      var k := n.value;
      ghost var s1 := S();
      PrivateUnseen(s0, s1, x, orig, k, FLAGS);
      PrivateRoom(s0, s1, orig, k, FLAGS);
      add := if n != orig then n else None;
      EditFlags(k, flag, clear, sub, root);
      ghost var s2 := S();
      ghost var E := V(s1)[k].entries;
      l, v := k, V(s2);
      ChangedEdit(s0, s1, s2, x, orig, k, FLAGS, E[FLAGS := Flagged(E, flag, clear, sub, root)]);
      UpdLive(s1, s2, k, E[FLAGS := Flagged(E, flag, clear, sub, root)]);
      var m := Intern(k);
      ghost var s3 := S();
      ChangedIntern(s0, s2, s3, x, k, m, add);
      if m != k {
        if add.Some? {
          TempExists(s3, k);
          FreeLeaf(k);
          CountedHandles(S());
          ChangedFree(s0, s2, s3, S(), x, k, m);
        }
        add := Some(m);
      }
    }

    method FlagSetAt(x: Slot, flag: bv32, clear: bool, sub: bool, root: bool)
      requires Valid() && x.Tree?
      modifies this
      ensures Valid() && Elsewhere(old(S()), S())
      ensures View() == Put(old(View()), x, FLAGS, Flagged(EntriesAt(old(View()), x), flag, clear, sub, root))
    {
      hide Counted, V, Ids, TreeView, Live, NewFlags, FlagsOf, Changed, Elsewhere;
      ghost var s0 := S();
      var orig := if x in slots then Some(slots[x]) else None;
      SlotLeaves(s0);
      if orig.Some? && leaves[orig.value].rules[FLAGS].Some? {
        FlagsNow(s0, x);
        var e := rules[leaves[orig.value].rules[FLAGS].value].entry;
        if NewFlags(e.payload, flag, clear, sub, root) == e {
          ElsewhereSelf(s0);
          SamePut(View(), x, FLAGS, e);
          return;
        }
      }
      var add, l, v := FlagLeaf(x, orig, flag, clear, sub, root);
      Commit(x, add, s0, l, v);
    }

    /**
     * _config_domain_rule_add. A rule of a single-valued type replaces the one there, for this slot
     * alone. A list-valued rule that is there is extended in place: it keeps its marks, and every lookup
     * that reaches the same object shows the longer list.
     */
    method AddAt(x: Slot, t: int, r: RuleId, sub: bool, root: bool)
      requires Valid() && x.Tree? && 0 <= t < RULE_MAX && r in handles && Fits(rules, r, t)
      modifies this
      ensures Valid() && handles == old(handles) && r in old(rules)
      ensures !Appends(old(S()), x, t) ==>
                Elsewhere(old(S()), S()) && View() == Put(old(View()), x, t, Entry(old(rules)[r].entry.payload, sub, root))
      ensures Appends(old(S()), x, t) ==>
                var cur := RuleAt(old(S()), x, t).value;
                && cur in old(rules) && old(rules)[cur].entry.payload.Data? && old(rules)[r].entry.payload.Data?
                && View() == Spread(old(S()), cur, Extended(old(rules)[cur].entry, old(rules)[r].entry.payload.bytes))
    {
      hide Counted, V, Ids, TreeView, Live, Elsewhere, HandlesKept, Spread;
      SlotLeaves(S());
      HandleAlive(S(), r);
      if ListValued(t) && x in slots && t < |leaves[slots[x]].rules| && leaves[slots[x]].rules[t].Some? {
        AppendAt(x, t, rules[r].entry.payload.bytes);
      } else {
        ReplaceAt(x, t, r, sub, root);
        ElsewhereHandles(old(S()), S());
      }
    }

    /** The branch of an add that chains the new names behind those of the rule that is there. */
    method AppendAt(x: Slot, t: int, bytes: seq<byte>)
      requires Valid() && x.Tree? && Appends(S(), x, t)
      modifies this
      ensures Valid() && handles == old(handles)
      ensures var cur := RuleAt(old(S()), x, t).value;
              && cur in old(rules) && old(rules)[cur].entry.payload.Data?
              && View() == Spread(old(S()), cur, Extended(old(rules)[cur].entry, bytes))
    {
      hide Counted, V, Ids, TreeView, Live, HandlesKept, Private, Spread, Shrinks;
      ghost var s0 := S();
      RuleThere(s0, x, t);
      SlotLeaves(s0);
      var orig := Some(slots[x]);
      var n := EnsureCapacity(orig, t);
      var l := n.value;
      ghost var s1 := S();
      PrivateRule(s0, s1, x, l, t);
      var cur := leaves[l].rules[t].value;
      var e := Extended(rules[cur].entry, bytes);
      EditSharedKeeps(s1, cur, e);
      SameKeys(s1, cur, e);
      rules := rules[cur := rules[cur].(entry := e)];
      Publish(x, if n != orig then n else None);
      assert multiset{} + multiset{l} - multiset{l} == multiset{};
      assert slots == s0.slots[x := l];
      SpreadDone(s0, s1, S(), x, l, t, cur, e);
    }

    method ReplaceAt(x: Slot, t: int, r: RuleId, sub: bool, root: bool)
      requires Valid() && x.Tree? && 0 <= t < RULE_MAX && r in handles && Fits(rules, r, t)
      modifies this
      ensures Valid() && Elsewhere(old(S()), S())
      ensures r in old(rules) && View() == Put(old(View()), x, t, Entry(old(rules)[r].entry.payload, sub, root))
    {
      hide Counted, V, Ids, TreeView, Live, Changed, Elsewhere, Private, Upd, HandlesKept;
      ghost var s0 := S();
      var orig := if x in slots then Some(slots[x]) else None;
      SlotLeaves(s0);
      var n := EnsureCapacity(orig, t);
      var l := n.value;
      ghost var s1 := S();
      PrivateUnseen(s0, s1, x, orig, l, t);
      PrivateRoom(s0, s1, orig, l, t);
      FitsKept(s0, s1, r, t);
      SamePayload(s0, s1, r);
      PlaceRule(l, t, r, sub, root);
      ghost var E := V(s1)[l].entries[t := Entry(s0.rules[r].entry.payload, sub, root)];
      UpdLive(s1, S(), l, E);
      ChangedEdit(s0, s1, S(), x, orig, l, t, E);
      Commit(x, if n != orig then n else None, s0, l, V(S()));
    }

    method RemoveAt(x: Slot, t: int) returns (ret: int)
      requires Valid() && x.Tree? && 0 <= t < RULE_MAX
      modifies this
      ensures Valid() && Elsewhere(old(S()), S())
      ensures ret == (if x in old(View()) then 0 else -1) && View() == Drop(old(View()), x, t)
    {
      hide Counted, V, Ids, TreeView, Live, Changed, Elsewhere, Private, Upd;
      ghost var s0 := S();
      if x !in slots {
        ViewNone(s0, x);
        ElsewhereSelf(s0);
        return -1;
      }
      ret := 0;
      SlotLeaves(s0);
      ViewAt(s0, x);
      if t >= |leaves[slots[x]].rules| || leaves[slots[x]].rules[t] == None {
        NoEntry(s0, slots[x], t);
        ElsewhereSelf(s0);
        assert View()[x] - {t} == View()[x];
        return;
      }
      EntryOf(s0, slots[x], t);
      var orig := Some(slots[x]);
      var n := EnsureCapacity(orig, t);
      var l := n.value;
      ghost var s1 := S();
      ChangedCopy(s0, s1, x, orig, l, t);
      PrivateRoom(s0, s1, orig, l, t);
      Commit(x, if n != orig then n else None, s0, l, V(s1));
      ghost var s2 := S();
      assert View() == old(View());
      ViewAt(s2, x);
      SlotLeaves(s2);
      RoomStays(s2, l, t);
      ReleaseRule(l, t);
      UpdLive(s2, S(), l, V(s2)[l].entries - {t});
      ViewUpd(s2, S(), x, l, V(s2)[l].entries - {t});
      ElsewhereTrans(s0, s2, S());
    }

    method DeleteAt(x: Slot)
      requires Valid()
      modifies `slots, `leaves, `rules, `handles, `temp, `freed
      ensures Valid() && slots == old(slots) - {x} && View() == old(View()) - {x}
      ensures handles == old(handles) && HandlesKept(old(S()), S()) && (x.Tree? ==> Elsewhere(old(S()), S()))
    {
      hide Counted, V, Ids, TreeView, Live, Elsewhere, Released, HandlesKept, Shrinks;
      ghost var s0 := S();
      if x in slots {
        ClearSlotKeeps(s0, x);
        var l := TakeSlot(x);
        ghost var s1 := S();
        TempExists(s1, l);
        FreeLeaf(l);
        CountedHandles(S());
        ReleasedShrinks(s1, S(), l);
        SlotGone(s0, x);
        HandlesKeptTrans(s0, s1, S());
        assert multiset{} + multiset{l} - multiset{l} == multiset{};
        ViewDel(s0, S(), x);
      } else {
        ViewNone(s0, x);
        HandlesKeptSelf(s0);
        ElsewhereSelf(s0);
        assert slots - {x} == slots && View() - {x} == View();
      }
    }

    // ---- Groups ----

    /** One step of _config_domain_rule_iter_copy: y shares the leaf of x. */
    method ShareSlot(x: Slot, y: Slot)
      requires Valid() && x in slots && x.Tree? && y.Tree?
      modifies `slots, `leaves, `rules, `handles, `temp, `freed
      ensures Valid() && Elsewhere(old(S()), S()) && x in old(View()) && View() == old(View())[y := old(View())[x]]
      ensures slots == old(slots)[y := old(slots)[x]]
    {
      hide Counted, V, Ids, TreeView, Elsewhere, HandlesKept, Shrinks;
      ghost var s0 := S();
      ViewAt(s0, x);
      SlotLeaves(s0);
      var l := slots[x];
      IncLeafKeeps(s0, l);
      IncrementLeaf(l);
      SharedHandles(s0, l);
      ShrinksSelf(V(s0));
      Commit(y, Some(l), s0, l, V(s0));
    }

    /** A new group inherits the parent's leaves. */
    method Inherit(parent: Group, child: Group)
      requires Valid() && parent != child
      modifies `slots, `leaves, `rules, `handles, `temp, `freed
      ensures Valid() && Elsewhere(old(S()), S()) && View() == InheritedView(old(View()), parent, child)
      ensures forall k :: Tree(parent, k) in old(slots) ==>
                Tree(parent, k) in slots && Tree(child, k) in slots && slots[Tree(child, k)] == slots[Tree(parent, k)] == old(slots)[Tree(parent, k)]
    {
      hide Counted, V, Ids, TreeView, Live, Elsewhere, InheritedKeys, KeysOf, Handing;
      ghost var s0, v0 := S(), View();
      var todo := set x | x in slots && x.Tree? && x.group == parent :: x.key;
      ghost var all := todo;
      KeysSlots(s0, parent);
      ElsewhereSelf(s0);
      InheritNone(v0, parent, child);
      HandingNone(s0.slots, parent, child, all);
      assert all - todo == {};
      while todo != {}
        invariant Valid() && Elsewhere(s0, S()) && todo <= all && forall k :: k in all ==> Tree(parent, k) in slots && Tree(parent, k) in s0.slots
        invariant View() == InheritedKeys(v0, parent, child, all - todo)
        invariant Handing(s0.slots, slots, parent, child, all - todo)
        decreases |todo|
      {
        var k :| k in todo;
        ghost var s := S();
        InheritRest(v0, View(), parent, child, all, todo, k);
        HandingNext(s0.slots, slots, parent, child, all, todo, k);
        ShareSlot(Tree(parent, k), Tree(child, k));
        ElsewhereTrans(s0, s, S());
        todo := todo - {k};
      }
      assert all - todo == all;
      HandingAll(s0.slots, slots, parent, child, all);
    }

    /**
     * Isolation ends at list-valued types: in every store, when a group has inherited such a rule and
     * then adds to it, the lookups of the parent show the longer list as well.
     */
    method ExtendInherited(parent: Group, child: Group, key: Text, t: int, r: RuleId, sub: bool, root: bool)
      requires Valid() && parent != child && Appends(S(), Tree(parent, key), t) && r in handles && Fits(rules, r, t)
      modifies this
      ensures Valid() && Tree(parent, key) in old(View()) && t in old(View())[Tree(parent, key)]
      ensures var was := old(View())[Tree(parent, key)][t];
              && was.payload.Data? && r in old(rules) && old(rules)[r].entry.payload.Data?
              && var now := Extended(was, old(rules)[r].entry.payload.bytes);
                 && Tree(child, key) in View() && t in View()[Tree(child, key)] && View()[Tree(child, key)][t] == now
                 && Tree(parent, key) in View() && t in View()[Tree(parent, key)] && View()[Tree(parent, key)][t] == now
    {
      hide Counted, V, Ids, TreeView, Live, Elsewhere, HandlesKept, Spread, InheritedView, Fits, RuleAt, Reaches;
      ghost var s0 := S();
      var x, y := Tree(parent, key), Tree(child, key);
      AppendsSlot(s0, x, t);
      ShownRule(s0, x, t);
      Inherit(parent, child);
      ghost var s1 := S();
      StillFits(s0, s1, r, t);
      ParentStays(TreeView(s0.slots, V(s0)), parent, child, key);
      ShownRule(s1, x, t);
      SharedReach(s1, x, y, t);
      AddAt(y, t, r, sub, root);
      ghost var cur := RuleAt(s1, y, t).value;
      ghost var e := Extended(s1.rules[cur].entry, s1.rules[r].entry.payload.bytes);
      SpreadAt(s1, cur, e, x);
      SpreadAt(s1, cur, e, y);
      ShownRule(s1, y, t);
    }

    /** _config_rule_group_remove, for the domain rules. */
    method RemoveGroup(g: Group)
      requires Valid()
      modifies `slots, `leaves, `rules, `handles, `temp, `freed
      ensures Valid() && Elsewhere(old(S()), S()) && View() == WithoutGroup(old(View()), g)
      ensures slots.Keys == old(slots).Keys - (set x | x in old(slots) && x.Tree? && x.group == g)
    {
      hide Counted, V, Ids, TreeView, Live, Elsewhere;
      ghost var s0, v0 := S(), View();
      var todo := set x | x in slots && x.Tree? && x.group == g;
      ghost var all := todo;
      ElsewhereSelf(s0);
      while todo != {}
        invariant Valid() && Elsewhere(s0, S()) && todo <= all && slots.Keys == s0.slots.Keys - (all - todo)
        invariant View() == v0 - (all - todo)
        decreases |todo|
      {
        var x :| x in todo;
        ghost var s := S();
        DeleteAt(x);
        ElsewhereTrans(s0, s, S());
        MinusNext(v0, all, todo, x);
        todo := todo - {x};
      }
      GroupGone(s0, g, all);
    }

    /** _config_domain_rule_pool_clear. */
    method PoolClear()
      requires Valid()
      modifies `slots, `leaves, `rules, `handles, `temp, `freed
      ensures Valid() && View() == old(View()) && handles == old(handles) && HandlesKept(old(S()), S())
      ensures slots.Keys == set x | x in old(slots) && x.Tree?
    {
      hide Counted, V, Ids, TreeView, Live, HandlesKept;
      ghost var s0 := S();
      HandlesKeptSelf(s0);
      var i := 0;
      while i < POOL_SIZE
        invariant 0 <= i <= POOL_SIZE && Valid() && View() == old(View()) && handles == old(handles) && HandlesKept(s0, S())
        invariant slots.Keys == set x | x in s0.slots && (x.Tree? || x.i >= i)
      {
        ghost var s := S();
        PoolUnseen(s, i);
        DeleteAt(Pool(i));
        HandlesKeptTrans(s0, s, S());
        i := i + 1;
      }
      PoolBound(s0);
    }

    /**
     * _config_rule_group_destroy and then the pool: every leaf ever allocated has been freed exactly
     * once, and the rules left are those that callers still hold.
     */
    method Teardown()
      requires Valid()
      modifies `slots, `leaves, `rules, `handles, `temp, `freed
      ensures Valid() && leaves == map[] && handles == old(handles) && (forall l: LeafId :: freed[l] == if l < nextLeaf then 1 else 0)
      ensures forall r :: r in rules ==> rules[r].refcnt == handles[r]
    {
      hide Counted, V, TreeView, Live, Elsewhere;
      ghost var s0 := S();
      ElsewhereSelf(s0);
      var gs := set x | x in slots && x.Tree? :: x.group;
      while gs != {}
        invariant Valid() && handles == old(handles) && forall x :: x in slots && x.Tree? ==> x.group in gs
        decreases |gs|
      {
        var g :| g in gs;
        ghost var s := S();
        RemoveGroup(g);
        ElsewhereHandles(s, S());
        gs := gs - {g};
      }
      PoolClear();
      assert slots == map[];
      NothingLeft(S());
      OnlyHandles(S());
    }

    // ---- Calls ----

    /** A caller makes a rule to add. */
    method NewHandle(e: Entry) returns (r: RuleId)
      requires Valid()
      modifies `rules, `handles, `nextRule
      ensures Valid() && View() == old(View()) && r !in old(rules) && handles == old(handles) + multiset{r}
      ensures rules == old(rules)[r := Rule(1, e)]
    {
      hide Counted, V, Ids, Live;
      ghost var s := S();
      r := Create(e);
      NewRuleKeeps(s, r, e);
    }

    /** A caller is done with a rule: lookups keep what was added. */
    method DropHandle(r: RuleId)
      requires Valid() && r in handles
      modifies `rules, `handles
      ensures Valid() && View() == old(View()) && handles == old(handles) - multiset{r}
    {
      hide Counted, V, Ids, Live;
      PutRuleKeeps(S(), r);
      PutBack(r);
    }

    /** _config_domain_rule_flag_set, _add, _remove, _delete, and inheritance when a group is made. */
    method Do(op: Op, ghost payloads: map<RuleId, Payload>) returns (ret: int)
      requires Valid() && Fair(S(), op) && Knows(S(), payloads)
      modifies this
      ensures Valid() && Elsewhere(old(S()), S()) && Knows(S(), payloads) && (View(), ret) == Apply(old(View()), op, payloads)
    {
      hide Counted, V, Ids, TreeView, Live, Elsewhere, Put, Drop, InheritedView, SetupKey;
      ghost var s0 := S();
      ElsewhereSelf(s0);
      ret := -1;
      match op {
        case SetFlag(g, domain, flag, clear) =>
          var k := KeyOf(domain);
          if k.Some? {
            FlagSetAt(Tree(g, k.value.key), flag, clear, k.value.sub, k.value.root);
            ret := 0;
          }
        case AddRule(g, domain, t, r) =>
          var k := KeyOf(domain);
          if k.Some? && 0 <= t < RULE_MAX {
            AddAt(Tree(g, k.value.key), t, r, k.value.sub, k.value.root);
            ret := 0;
          }
        case RemoveRule(g, domain, t) =>
          var k := KeyOf(domain);
          if k.Some? && 0 <= t < RULE_MAX {
            ret := RemoveAt(Tree(g, k.value.key), t);
            DropNothing(old(View()), Tree(g, k.value.key), t);
          }
        case DeleteRules(g, domain) =>
          var k := KeyOf(domain);
          if k.Some? {
            DeleteAt(Tree(g, k.value.key));
            ret := 0;
          }
        case InheritFrom(g, parent) =>
          Inherit(parent, g);
          ret := 0;
      }
      StillKnown(s0, S(), payloads);
    }

    /** Any sequence of calls acts on lookups as on the plain map, so groups are isolated and keep what they inherited. */
    method Run(ops: seq<Op>, ghost payloads: map<RuleId, Payload>)
      requires Valid() && Knows(S(), payloads) && forall i :: 0 <= i < |ops| ==> Fair(S(), ops[i])
      modifies this
      ensures Valid() && Elsewhere(old(S()), S()) && View() == ApplyAll(old(View()), ops, payloads)
      ensures Apart(old(View()), View(), ops) && Handed(old(View()), View(), ops, payloads)
    {
      hide Counted, V, Ids, TreeView, Live, Elsewhere, Apply, ApplyAll, Fair, Knows, Apart, Handed;
      ghost var s0, v0 := S(), View();
      ElsewhereSelf(s0);
      assert ApplyAll(v0, ops[..0], payloads) == v0 by { NoOps(v0, payloads); }
      for i := 0 to |ops|
        invariant Valid() && Knows(S(), payloads) && Elsewhere(s0, S()) && View() == ApplyAll(v0, ops[..i], payloads)
        invariant forall j :: 0 <= j < |ops| ==> Fair(S(), ops[j])
      {
        ghost var s := S();
        ApplyAllNext(v0, ops, payloads, i);
        var ret := Do(ops[i], payloads);
        ElsewhereTrans(s0, s, S());
        forall j | 0 <= j < |ops| ensures Fair(S(), ops[j]) {
          StillFair(s, S(), ops[j]);
        }
      }
      assert ops[..|ops|] == ops;
      ApplyAllApart(v0, ops, payloads);
    }
  }
}
