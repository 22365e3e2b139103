/**
 * What the domain rule store promises: a plain map from the slots of group trees to typed entries,
 * updated directly, without sharing, interning or capacities.
 */
module RuleSpec {
  import opened Bytes
  import opened NameDecode
  import opened SuffixIndex
  import opened RuleCounts

  type View = map<Slot, map<int, Entry>>

  function EntriesAt(view: View, x: Slot): map<int, Entry> {
    if x in view then view[x] else map[]
  }

  function Put(view: View, x: Slot, t: int, e: Entry): View {
    view[x := EntriesAt(view, x)[t := e]]
  }

  function Drop(view: View, x: Slot, t: int): View {
    if x in view then view[x := view[x] - {t}] else view
  }

  function FlagsOf(e: map<int, Entry>): (p: Payload)
    ensures p.Flags?
  {
    if FLAGS in e && e[FLAGS].payload.Flags? then e[FLAGS].payload else Flags(0, 0)
  }

  function NewFlags(p: Payload, flag: bv32, clear: bool, sub: bool, root: bool): (e: Entry)
    requires p.Flags?
    ensures e.payload.Flags? && e.sub == sub && e.root == root
  {
    Entry(Flags(if clear then p.flags & !flag else p.flags | flag, p.isSet | flag), sub, root)
  }

  /** The flags entry after a flag was set or cleared. */
  function Flagged(e: map<int, Entry>, flag: bv32, clear: bool, sub: bool, root: bool): Entry {
    NewFlags(FlagsOf(e), flag, clear, sub, root)
  }

  /** Types whose rules are chained instead of replaced (ipset and nftset). */
  predicate ListValued(t: int) {
    t in {5, 6, 7, 9, 10}
  }

  // ---- Groups ----

  /** The view after child has taken over the parent's leaves at the given keys. */
  function InheritedKeys(v: View, parent: Group, child: Group, keys: set<Text>): View
    requires forall k :: k in keys ==> Tree(parent, k) in v
  {
    map x | x in v.Keys + (set k | k in keys :: Tree(child, k)) ::
      if x.Tree? && x.group == child && x.key in keys then v[Tree(parent, x.key)] else v[x]
  }

  function KeysOf(v: View, g: Group): set<Text> {
    set x | x in v && x.Tree? && x.group == g :: x.key
  }

  function InheritedView(v: View, parent: Group, child: Group): View {
    InheritedKeys(v, parent, child, KeysOf(v, parent))
  }

  lemma InheritNext(v: View, w: View, parent: Group, child: Group, keys: set<Text>, k: Text)
    requires parent != child && k !in keys && Tree(parent, k) in v && forall j :: j in keys ==> Tree(parent, j) in v
    requires w == InheritedKeys(v, parent, child, keys)
    ensures Tree(parent, k) in w
    ensures w[Tree(child, k) := w[Tree(parent, k)]] == InheritedKeys(v, parent, child, keys + {k})
  {
    var a, b := w[Tree(child, k) := w[Tree(parent, k)]], InheritedKeys(v, parent, child, keys + {k});
    assert forall x :: x in a <==> x in b;
    assert forall x :: x in a ==> a[x] == b[x];
  }

  lemma InheritRest(v: View, w: View, parent: Group, child: Group, all: set<Text>, todo: set<Text>, k: Text)
    requires parent != child && todo <= all && k in todo && forall j :: j in all ==> Tree(parent, j) in v
    requires w == InheritedKeys(v, parent, child, all - todo)
    ensures Tree(parent, k) in w
    ensures w[Tree(child, k) := w[Tree(parent, k)]] == InheritedKeys(v, parent, child, all - (todo - {k}))
  {
    hide InheritedKeys;
    InheritNext(v, w, parent, child, all - todo, k);
    assert all - todo + {k} == all - (todo - {k});
  }

  lemma InheritNone(v: View, parent: Group, child: Group)
    ensures InheritedKeys(v, parent, child, {}) == v
  {
  }

  function WithoutGroup(v: View, g: Group): View {
    map x | x in v && x.Tree? && x.group != g :: v[x]
  }

  // ---- Runs ----

  datatype Op =
    | SetFlag(group: Group, domain: Text, flag: bv32, clear: bool)
    | AddRule(group: Group, domain: Text, t: int, rule: RuleId)
    | RemoveRule(group: Group, domain: Text, t: int)
    | DeleteRules(group: Group, domain: Text)
    | InheritFrom(group: Group, parent: Group)

  function KeyOf(domain: Text): Option<DomainKey> {
    SetupKey(domain, MAX_CONF_CNAME_LEN)
  }

  /** The map after an operation, and the value the operation returns. */
  function Apply(v: View, op: Op, payloads: map<RuleId, Payload>): (View, int) {
    match op
    case SetFlag(g, domain, flag, clear) =>
      (match KeyOf(domain)
       case None => (v, -1)
       case Some(k) =>
         var x := Tree(g, k.key);
         (Put(v, x, FLAGS, Flagged(EntriesAt(v, x), flag, clear, k.sub, k.root)), 0))
    case AddRule(g, domain, t, r) =>
      (match KeyOf(domain)
       case None => (v, -1)
       case Some(k) =>
         if 0 <= t < RULE_MAX && r in payloads then (Put(v, Tree(g, k.key), t, Entry(payloads[r], k.sub, k.root)), 0)
         else (v, -1))
    case RemoveRule(g, domain, t) =>
      (match KeyOf(domain)
       case None => (v, -1)
       case Some(k) =>
         if 0 <= t < RULE_MAX && Tree(g, k.key) in v then (Drop(v, Tree(g, k.key), t), 0) else (v, -1))
    case DeleteRules(g, domain) =>
      (match KeyOf(domain)
       case None => (v, -1)
       case Some(k) => (v - {Tree(g, k.key)}, 0))
    case InheritFrom(g, parent) => (InheritedView(v, parent, g), 0)
  }

  function ApplyAll(v: View, ops: seq<Op>, payloads: map<RuleId, Payload>): View
    decreases |ops|
  {
    if ops == [] then v else ApplyAll(Apply(v, ops[0], payloads).0, ops[1..], payloads)
  }

  lemma NoOps(v: View, payloads: map<RuleId, Payload>)
    ensures ApplyAll(v, [], payloads) == v
  {
  }

  lemma {:induction false} ApplyAllNext(v: View, ops: seq<Op>, payloads: map<RuleId, Payload>, i: nat)
    requires i < |ops|
    ensures ApplyAll(v, ops[..i + 1], payloads) == Apply(ApplyAll(v, ops[..i], payloads), ops[i], payloads).0
    decreases |ops|
  {
    hide Apply;
    if i == 0 {
      assert ops[..1] == [ops[0]] && ops[..0] == [];
    } else {
      ApplyAllNext(Apply(v, ops[0], payloads).0, ops[1..], payloads, i - 1);
      assert ops[..i + 1][1..] == ops[1..][..i] && ops[..i][1..] == ops[1..][..i - 1] && ops[1..][i - 1] == ops[i];
    }
  }

  predicate SameAt(v: View, w: View, x: Slot) {
    (x in w <==> x in v) && (x in v ==> w[x] == v[x])
  }

  lemma ApplyElsewhere(v: View, op: Op, payloads: map<RuleId, Payload>, g: Group, key: Text)
    requires op.group != g
    ensures SameAt(v, Apply(v, op, payloads).0, Tree(g, key))
  {
  }

  /** Isolation: operations in other groups leave every lookup in group g as it was. */
  lemma {:induction false} Isolated(v: View, ops: seq<Op>, payloads: map<RuleId, Payload>, g: Group, key: Text)
    requires forall i :: 0 <= i < |ops| ==> ops[i].group != g
    ensures SameAt(v, ApplyAll(v, ops, payloads), Tree(g, key))
    decreases |ops|
  {
    hide Apply;
    if ops != [] {
      ApplyElsewhere(v, ops[0], payloads, g, key);
      Isolated(Apply(v, ops[0], payloads).0, ops[1..], payloads, g, key);
    }
  }

  lemma {:induction false} ApplyAllSplit(v: View, ops: seq<Op>, payloads: map<RuleId, Payload>, j: nat)
    requires j <= |ops|
    ensures ApplyAll(v, ops, payloads) == ApplyAll(ApplyAll(v, ops[..j], payloads), ops[j..], payloads)
    decreases |ops|
  {
    hide Apply;
    if j == 0 {
      assert ops[..0] == [] && ops[0..] == ops;
    } else {
      ApplyAllSplit(Apply(v, ops[0], payloads).0, ops[1..], payloads, j - 1);
      assert ops[..j][1..] == ops[1..][..j - 1] && ops[j..] == ops[1..][j - 1..];
    }
  }

  /** Operation j made a group from a parent, and no later one works on that group. */
  predicate Inherits(ops: seq<Op>, j: int) {
    && 0 <= j < |ops| && ops[j].InheritFrom? && ops[j].parent != ops[j].group
    && forall i :: j < i < |ops| ==> ops[i].group != ops[j].group
  }

  /** A group that inherited shows what its parent showed then, whatever is done to other groups since. */
  lemma InheritedStays(v: View, ops: seq<Op>, payloads: map<RuleId, Payload>, j: nat, key: Text)
    requires Inherits(ops, j)
    ensures var before, now := ApplyAll(v, ops[..j], payloads), ApplyAll(v, ops, payloads);
            var x, y := Tree(ops[j].parent, key), Tree(ops[j].group, key);
            x in before ==> y in now && now[y] == before[x]
  {
    hide ApplyAll, KeysOf;
    var before, g, parent := ApplyAll(v, ops[..j], payloads), ops[j].group, ops[j].parent;
    if Tree(parent, key) in before {
      ApplyAllSplit(v, ops, payloads, j + 1);
      ApplyAllNext(v, ops, payloads, j);
      OwnKey(before, parent, key);
      var rest := ops[j + 1..];
      assert forall i :: 0 <= i < |rest| ==> rest[i] == ops[j + 1 + i];
      Isolated(InheritedView(before, parent, g), rest, payloads, g, key);
    }
  }

  lemma OwnKey(v: View, g: Group, key: Text)
    requires Tree(g, key) in v
    ensures key in KeysOf(v, g)
  {
    assert Tree(g, key).key == key;
  }

  /** Groups that no operation works on show what they showed. */
  ghost predicate Apart(v: View, w: View, ops: seq<Op>) {
    forall g, key :: (forall i :: 0 <= i < |ops| ==> ops[i].group != g) ==> SameAt(v, w, Tree(g, key))
  }

  /** Groups that inherited show what their parents showed at that moment. */
  ghost predicate Handed(v: View, w: View, ops: seq<Op>, payloads: map<RuleId, Payload>) {
    forall j, key :: Inherits(ops, j) ==>
      var before := ApplyAll(v, ops[..j], payloads);
      Tree(ops[j].parent, key) in before ==>
        Tree(ops[j].group, key) in w && w[Tree(ops[j].group, key)] == before[Tree(ops[j].parent, key)]
  }

  lemma ApplyAllApart(v: View, ops: seq<Op>, payloads: map<RuleId, Payload>)
    ensures Apart(v, ApplyAll(v, ops, payloads), ops) && Handed(v, ApplyAll(v, ops, payloads), ops, payloads)
  {
    hide ApplyAll, SameAt, Inherits;
    forall g, key | forall i :: 0 <= i < |ops| ==> ops[i].group != g
      ensures SameAt(v, ApplyAll(v, ops, payloads), Tree(g, key))
    {
      Isolated(v, ops, payloads, g, key);
    }
    HandedAll(v, ops, payloads);
  }

  lemma HandedAll(v: View, ops: seq<Op>, payloads: map<RuleId, Payload>)
    ensures Handed(v, ApplyAll(v, ops, payloads), ops, payloads)
  {
    hide ApplyAll;
    forall j, key | Inherits(ops, j) && Tree(ops[j].parent, key) in ApplyAll(v, ops[..j], payloads)
      ensures var before, now := ApplyAll(v, ops[..j], payloads), ApplyAll(v, ops, payloads);
              Tree(ops[j].group, key) in now && now[Tree(ops[j].group, key)] == before[Tree(ops[j].parent, key)]
    {
      InheritedStays(v, ops, payloads, j, key);
    }
  }
}
