/**
 * Keys of the domain rule tree (src/dns_conf/domain_rule.c, _config_setup_domain_key) and what a key
 * found by the walk of src/dns_server/rules.c means for a query.
 */
module SuffixIndex {
  import opened Bytes
  import opened NameDecode
  import opened Update

  const STAR: byte := 42
  const DASH: byte := 45
  const MAX_CONF_CNAME_LEN: nat := 256

  datatype DomainKey = DomainKey(key: Text, root: bool, sub: bool)

  function Stripped(d: Text): (s: Text)
    ensures s <= d && (forall i :: |s| <= i < |d| ==> d[i] == DOT) && (s != [] ==> s[|s| - 1] != DOT)
  {
    if d != [] && d[|d| - 1] == DOT then Stripped(d[..|d| - 1]) else d
  }

  function Lowered(s: Text): (r: Text)
    ensures |r| == |s| && forall i :: 0 <= i < |s| ==> r[i] == Lower(s[i])
  {
    seq(|s|, i requires 0 <= i < |s| => Lower(s[i]))
  }

  function Reversed(s: Text): (r: Text)
    ensures |r| == |s| && forall i :: 0 <= i < |s| ==> r[i] == s[|s| - 1 - i]
  {
    seq(|s|, i requires 0 <= i < |s| => s[|s| - 1 - i])
  }

  /** The text of a domain without case and trailing dots. */
  function Norm(d: Text): Text {
    Lowered(Stripped(d))
  }

  /** How much of "." followed by the reversed text is the key, whether a dot follows, and the marks. */
  datatype Shape = Shape(len: nat, dot: bool, root: bool, sub: bool)

  function ShapeOf(domain: Text): (s: Shape)
    ensures s.len <= |Stripped(domain)| + 1
  {
    var n := |Stripped(domain)|;
    if |domain| > 1 && domain[0] == STAR then
      if domain[1] == DOT then Shape(n, false, false, true)
      else if domain[1] == DASH && |domain| > 2 && domain[2] == DOT then Shape(n - 1, false, true, true)
      else Shape(n, false, false, false)
    else if |domain| > 1 && domain[0] == DASH then
      if domain[1] == DOT then Shape(n - 1, false, true, false) else Shape(n, false, false, false)
    else Shape(n + 1, n > 0, false, false)
  }

  /** The key of a configured domain with the marks of its prefix, or None when it does not fit. */
  function SetupKey(domain: Text, max: nat): Option<DomainKey> {
    if |domain| + 3 > max then None
    else
      var s := ShapeOf(domain);
      Some(DomainKey(([DOT] + Reversed(Norm(domain)))[..s.len] + (if s.dot then [DOT] else []), s.root, s.sub))
  }

  // ---- The buffer version ----

  lemma WriteMore(b: Text, at: nat, s: Text, x: byte)
    requires at + |s| < |b|
    ensures Write(b, at, s)[at + |s| := x] == Write(b, at, s + [x])
  {
  }

  lemma NextReversed(input: Text, len: nat, i: nat)
    requires i < len <= |input|
    ensures var r := Reversed(Lowered(input[..len])); r[..len - i] == r[..len - i - 1] + [Lower(input[i])]
  {
  }

  /** reverse_string with lower-casing, into output[at..]. */
  method ReverseString(output: array<byte>, at: nat, input: Text, len: nat)
    requires len <= |input| && at + len < output.Length
    modifies output
    ensures output[..] == Write(old(output[..]), at, Reversed(Lowered(input[..len])) + [0])
  {
    hide Write, Lowered, Reversed;
    ghost var b, r := output[..], Reversed(Lowered(input[..len]));
    var i := len;
    assert Write(b, at, r[..0]) == b by { WriteNothing(b, at); }
    while i > 0
      invariant 0 <= i <= len && output[..] == Write(b, at, r[..len - i])
    {
      i := i - 1;
      NextReversed(input, len, i);
      WriteMore(b, at, r[..len - i - 1], Lower(input[i]));
      output[at + len - 1 - i] := Lower(input[i]);
    }
    output[at + len] := 0;
    assert r[..len] == r;
    WriteMore(b, at, r, 0);
  }

  lemma WriteNothing(b: Text, at: nat)
    requires at <= |b|
    ensures Write(b, at, []) == b
  {
  }

  method TrimmedLength(domain: Text) returns (len: nat)
    ensures len == |Stripped(domain)| && domain[..len] == Stripped(domain)
  {
    len := |domain|;
    assert domain[..len] == domain;
    while len > 0 && domain[len - 1] == DOT
      invariant 0 <= len <= |domain| && Stripped(domain[..len]) == Stripped(domain)
    {
      assert domain[..len][..len - 1] == domain[..len - 1];
      len := len - 1;
    }
  }

  method SetupDomainKey(domain: Text, key: array<byte>) returns (ok: bool, keyLen: nat, root: bool, sub: bool)
    modifies key
    ensures ok == SetupKey(domain, key.Length).Some?
    ensures ok ==> keyLen < key.Length && DomainKey(key[..keyLen], root, sub) == SetupKey(domain, key.Length).value
    ensures ok ==> key[keyLen] == 0
    ensures !ok ==> key[..] == old(key[..])
  {
    root, sub, keyLen := false, false, 0;
    if |domain| + 3 > key.Length {
      return false, 0, false, false;
    }
    ok := true;
    hide *;
    var n := TrimmedLength(domain);
    var len: int;
    ReverseString(key, 1, domain, n);
    ghost var k := key[..];
    len, root, sub := Prefix(domain, n);
    if len > n {
      key[n + 1] := DOT;
    }
    key[0] := DOT;
    ghost var k' := key[..];
    Filled(domain, old(key[..]), k, k', n, len);
    if root && !sub && key[len] == DOT {
      len := len - 1;
    }
    keyLen := len + 1;
    key[keyLen] := 0;
    assert key[..keyLen] == k'[..keyLen];
  }

  /** The buffer before the length is settled. */
  lemma Filled(domain: Text, b: Text, k: Text, k': Text, n: nat, len: nat)
    requires n == |Stripped(domain)| && |domain| + 3 <= |b| && n <= |domain|
    requires k == Write(b, 1, Reversed(Lowered(Stripped(domain))) + [0])
    requires var s := ShapeOf(domain);
             s.dot == (len > n) && len <= n + 1 && s.len == (if s.dot || (s.root && !s.sub) then len else len + 1)
    requires k' == if len > n then k[n + 1 := DOT][0 := DOT] else k[0 := DOT]
    ensures var s := ShapeOf(domain);
            && (s.root && !s.sub ==> k'[len] == DOT)
            && SetupKey(domain, |b|) == Some(DomainKey(k'[..if s.root && !s.sub then len else len + 1], s.root, s.sub))
  {
    hide Norm, Reversed, Stripped, Write, ShapeOf;
    var rev := Reversed(Norm(domain));
    RevIs(domain, rev);
    TextIs(b, k, rev);
    KeyIs(k, rev);
    DashDot(domain);
    RootShape(domain);
    var s := ShapeOf(domain);
    if s.root && !s.sub {
      assert k'[..len + 1] == ([DOT] + rev)[..len + 1];
      assert k'[len] == k'[..len + 1][len];
      assert k'[..len] == ([DOT] + rev)[..s.len] + [];
    } else if s.dot {
      assert k'[..len + 1] == ([DOT] + rev)[..s.len] + [DOT];
    } else {
      assert k'[..len + 1] == ([DOT] + rev)[..s.len] + [];
    }
  }

  /** What the leading characters say; len > n asks for a trailing dot. */
  method Prefix(domain: Text, n: nat) returns (len: int, root: bool, sub: bool)
    requires n == |Stripped(domain)|
    ensures 0 <= len <= n + 1
    ensures var s := ShapeOf(domain);
            root == s.root && sub == s.sub && s.dot == (len > n) && s.len == (if s.dot || (root && !sub) then len else len + 1)
  {
    hide Stripped;
    PrefixKept(domain);
    len, root, sub := n, false, false;
    if |domain| > 1 && domain[0] == STAR {
      len := len - 1;
      if domain[1] == DOT {
        sub := true;
      } else if domain[1] == DASH && |domain| > 2 && domain[2] == DOT {
        len := len - 1;
        sub, root := true, true;
      }
    } else if |domain| > 1 && domain[0] == DASH {
      len := len - 1;
      if domain[1] == DOT {
        root := true;
      }
    } else if len > 0 {
      len := len + 1;
    }
  }

  lemma RootShape(domain: Text)
    ensures var s := ShapeOf(domain);
            && (s.root && !s.sub <==> |domain| > 1 && domain[0] == DASH && domain[1] == DOT)
            && (s.root && !s.sub ==> s.len == |Stripped(domain)| - 1)
            && (s.dot ==> s.len == |Stripped(domain)| + 1 && !s.root && !s.sub)
  {
  }

  lemma RevIs(domain: Text, rev: Text)
    requires rev == Reversed(Norm(domain))
    ensures rev == Reversed(Lowered(Stripped(domain))) && |rev| == |Stripped(domain)|
  {
  }

  lemma TextIs(b: Text, k: Text, rev: Text)
    requires 1 + |rev| < |b| && k == Write(b, 1, rev + [0])
    ensures k[1..|rev| + 1] == rev && |k| == |b|
  {
    assert k[1..|rev| + 2][..|rev|] == rev;
  }

  /** The buffer behind the leading dot, cut at any length, and with a trailing dot. */
  lemma KeyIs(k: Text, rev: Text)
    requires |rev| + 3 <= |k| && k[1..|rev| + 1] == rev
    ensures forall m :: 0 <= m <= |rev| + 1 ==> k[0 := DOT][..m] == ([DOT] + rev)[..m]
    ensures k[|rev| + 1 := DOT][0 := DOT][..|rev| + 2] == [DOT] + rev + [DOT]
  {
  }

  /** Stripping never reaches into a prefix mark. */
  lemma PrefixKept(domain: Text)
    ensures |domain| > 0 && domain[0] != DOT ==> |Stripped(domain)| >= 1
    ensures |domain| > 1 && domain[1] != DOT ==> |Stripped(domain)| >= 2
  {
  }

  /** Behind "-." the reversed text ends in the dot, unless nothing else is left. */
  lemma DashDot(domain: Text)
    ensures var rev := Reversed(Norm(domain));
            |domain| > 1 && domain[0] == DASH && domain[1] == DOT ==> |rev| >= 1 && ([DOT] + rev)[|rev| - 1] == DOT
  {
  }

  // ---- What a key means ----

  predicate EndsWith(q: Text, s: Text) {
    |s| <= |q| && q[|q| - |s|..] == s
  }

  lemma ReversedPrefix(a: Text, b: Text)
    ensures Reversed(a) <= Reversed(b) <==> EndsWith(b, a)
  {
    if Reversed(a) <= Reversed(b) {
      forall i | 0 <= i < |a| ensures b[|b| - |a| + i] == a[i] {
        assert Reversed(a)[|a| - 1 - i] == Reversed(b)[|a| - 1 - i];
      }
    }
    if EndsWith(b, a) {
      forall i | 0 <= i < |a| ensures Reversed(a)[i] == Reversed(b)[i] {
        assert b[|b| - |a|..][|a| - 1 - i] == a[|a| - 1 - i];
      }
    }
  }

  lemma ReversedCons(x: byte, a: Text)
    ensures Reversed([x] + a) == Reversed(a) + [x]
  {
  }

  lemma ReversedInjective(a: Text, b: Text)
    requires Reversed(a) == Reversed(b)
    ensures a == b
  {
    ReversedPrefix(a, b);
    assert b[0..] == b;
  }

  /** Prefixes of a key are the text itself with its dot, and proper endings. */
  lemma PrefixOfKey(k: Text, n: Text)
    ensures [DOT] + k <= [DOT] + Reversed(n) + [DOT] <==> k <= Reversed(n) || k == Reversed(n) + [DOT]
  {
    var t := Reversed(n) + [DOT];
    assert [DOT] + Reversed(n) + [DOT] == [DOT] + t;
    DropFirst(k, t);
    if k <= t {
      if |k| == |t| {
        assert t[..|k|] == t;
      } else {
        assert t[..|k|] == Reversed(n)[..|k|];
      }
    }
    if k <= Reversed(n) {
      assert t[..|k|] == Reversed(n)[..|k|];
    }
  }

  lemma DropFirst(k: Text, t: Text)
    ensures [DOT] + k <= [DOT] + t <==> k <= t
  {
    if [DOT] + k <= [DOT] + t {
      assert ([DOT] + t)[..|k| + 1][1..] == ([DOT] + k)[1..] == k;
      assert ([DOT] + t)[..|k| + 1][1..] == t[..|k|];
    }
  }

  /** A configured domain whose text carries no mark. */
  predicate Plain(d: Text) {
    !(|d| > 1 && (d[0] == STAR || d[0] == DASH))
  }

  lemma PlainKey(d: Text)
    requires Plain(d) && |d| + 3 <= MAX_CONF_CNAME_LEN
    ensures SetupKey(d, MAX_CONF_CNAME_LEN)
            == Some(DomainKey(if Norm(d) == [] then [DOT] else [DOT] + Reversed(Norm(d)) + [DOT], false, false))
  {
    hide Stripped, Reversed;
    var rev := Reversed(Norm(d));
    assert ([DOT] + rev)[..|rev| + 1] == [DOT] + rev;
    assert [DOT] + [] == [DOT];
  }

  /** Being equal to d, or below it. */
  predicate Under(e: Text, d: Text) {
    d == [] || e == d || EndsWith(e, [DOT] + d)
  }

  lemma KeyPrefix(n: Text, m: Text)
    requires n != []
    ensures [DOT] + Reversed(n) + [DOT] <= [DOT] + Reversed(m) + [DOT] <==> n == m || EndsWith(m, [DOT] + n)
  {
    hide Reversed, EndsWith;
    ReversedCons(DOT, n);
    assert [DOT] + Reversed(n) + [DOT] == [DOT] + (Reversed(n) + [DOT]);
    PrefixOfKey(Reversed(n) + [DOT], m);
    ReversedPrefix([DOT] + n, m);
    if Reversed(n) + [DOT] == Reversed(m) + [DOT] {
      assert Reversed(n) == (Reversed(n) + [DOT])[..|n|] == (Reversed(m) + [DOT])[..|m|] == Reversed(m);
      ReversedInjective(n, m);
    }
  }

  /**
   * The suffix index: the key of a plain domain is a prefix of another's exactly when the other is
   * the same domain or lies below it; the root's key is a prefix of every key.
   */
  lemma SuffixPrefix(d: Text, e: Text)
    requires Plain(d) && Plain(e) && |d| + 3 <= MAX_CONF_CNAME_LEN && |e| + 3 <= MAX_CONF_CNAME_LEN
    ensures SetupKey(d, MAX_CONF_CNAME_LEN).value.key <= SetupKey(e, MAX_CONF_CNAME_LEN).value.key <==> Under(Norm(e), Norm(d))
  {
    hide Reversed, Norm, EndsWith, SetupKey;
    PlainKey(d);
    PlainKey(e);
    var n, m := Norm(d), Norm(e);
    if n != [] {
      if m != [] {
        KeyPrefix(n, m);
      } else {
        EmptyEnds([DOT] + n);
      }
    }
  }

  lemma EmptyEnds(s: Text)
    requires s != []
    ensures !EndsWith([], s)
  {
  }

  // ---- Which rules a query meets ----

  /** The key a query is looked up with. */
  function QueryKey(q: Text): Text {
    [DOT] + Reversed(Lowered(q)) + [DOT]
  }

  /** The walk reaches the key, and the marks let it through. */
  predicate Matched(k: DomainKey, q: Text) {
    var full := |QueryKey(q)|;
    var isSub := |k.key| != full && |k.key| != full - 1;
    k.key <= QueryKey(q) && !(k.sub && !isSub) && !(k.root && isSub)
  }

  /** Queries too long for the key buffer meet no rule. */
  predicate Applies(k: DomainKey, q: Text) {
    |q| < MAX_CNAME_LEN - 3 && Matched(k, q)
  }

  /** Being matched, said of the texts. */
  predicate Means(rule: Text, q: Text) {
    if |rule| > 1 && rule[0] == STAR && rule[1] == DOT then
      var n := Norm(rule[2..]);
      if n == [] then q != [] else EndsWith(q, [DOT] + n) && q != [DOT] + n
    else if |rule| > 2 && rule[0] == STAR && rule[1] == DASH && rule[2] == DOT then false
    else if |rule| > 1 && rule[0] == DASH && rule[1] == DOT then
      var n := Norm(rule[2..]);
      n != [] && (q == n || n == [DOT] + q)
    else if |rule| > 1 && (rule[0] == STAR || rule[0] == DASH) then EndsWith(q, Norm(rule[1..]))
    else Under(q, Norm(rule))
  }

  lemma StrippedUnique(d: Text, s: Text)
    requires s <= d && (forall i :: |s| <= i < |d| ==> d[i] == DOT) && (s != [] ==> s[|s| - 1] != DOT)
    ensures s == Stripped(d)
  {
    hide Stripped;
    var t := Stripped(d);
    if s != [] {
      assert d[|s| - 1] == s[|s| - 1];
    }
    if t != [] {
      assert d[|t| - 1] == t[|t| - 1];
    }
    assert s == d[..|s|] == t;
  }

  lemma LoweredCons(x: byte, t: Text)
    ensures Lowered([x] + t) == [Lower(x)] + Lowered(t)
  {
  }

  /** Stripping and lowering behind one leading character that is no dot. */
  lemma NormBehind(rule: Text)
    requires rule != [] && rule[0] != DOT
    ensures Stripped(rule) == [rule[0]] + Stripped(rule[1..]) && Norm(rule) == [Lower(rule[0])] + Norm(rule[1..])
  {
    hide Stripped, Lowered;
    var t := Stripped(rule[1..]);
    var s := [rule[0]] + t;
    LoweredCons(rule[0], t);
    assert s == rule[..|s|] by {
      assert rule[..|s|] == [rule[0]] + rule[1..][..|t|];
    }
    forall i | |s| <= i < |rule| ensures rule[i] == DOT {
      assert rule[i] == rule[1..][i - 1];
    }
    StrippedUnique(rule, s);
  }

  /** The same behind a dot, which is itself stripped when nothing follows. */
  lemma NormBehindDot(t: Text)
    requires t != [] && t[0] == DOT
    ensures Norm(t) == if Norm(t[1..]) == [] then [] else [DOT] + Norm(t[1..])
    ensures |Stripped(t)| == |Norm(t)|
  {
    hide Stripped, Lowered;
    var u := Stripped(t[1..]);
    var s := if u == [] then [] else [DOT] + u;
    LoweredCons(DOT, u);
    assert Lowered([]) == [];
    assert s == t[..|s|] by {
      if u != [] {
        assert t[..|s|] == [t[0]] + t[1..][..|u|];
      }
    }
    forall i | |s| <= i < |t| ensures t[i] == DOT {
      if i > 0 {
        assert t[i] == t[1..][i - 1];
      }
    }
    StrippedUnique(t, s);
  }

  /** The reversed text of a rule with one leading mark character. */
  lemma MarkedRev(rule: Text)
    requires rule != [] && rule[0] != DOT
    ensures Reversed(Norm(rule)) == Reversed(Norm(rule[1..])) + [Lower(rule[0])]
    ensures |Stripped(rule)| == |Norm(rule[1..])| + 1
  {
    hide Norm, Stripped, Reversed;
    NormBehind(rule);
    ReversedCons(Lower(rule[0]), Norm(rule[1..]));
    NormLength(rule[1..]);
  }

  lemma NormLength(t: Text)
    ensures |Norm(t)| == |Stripped(t)|
  {
  }

  lemma CutKey(r: Text, x: byte)
    ensures ([DOT] + (r + [x]))[..|r| + 1] + [] == [DOT] + r
    ensures ([DOT] + (r + [x]))[..|r|] + [] == ([DOT] + r)[..|r|]
  {
  }

  /** Keys of marked rules. */
  lemma MarkedKey(rule: Text)
    requires |rule| > 1 && (rule[0] == STAR || rule[0] == DASH) && |rule| + 3 <= MAX_CONF_CNAME_LEN
    ensures var t := Reversed(Norm(rule[1..]));
            var k := SetupKey(rule, MAX_CONF_CNAME_LEN).value;
            if rule[0] == STAR && rule[1] == DOT then k == DomainKey([DOT] + t, false, true)
            else if rule[0] == STAR && |rule| > 2 && rule[1] == DASH && rule[2] == DOT then k.root && k.sub
            else if rule[0] == DASH && rule[1] == DOT then k == DomainKey(([DOT] + t)[..|t|], true, false)
            else k == DomainKey([DOT] + t, false, false)
  {
    hide Norm, Stripped, Reversed;
    MarkedRev(rule);
    CutKey(Reversed(Norm(rule[1..])), Lower(rule[0]));
  }

  lemma KeyLengths(n: Text, q: Text)
    ensures |QueryKey(q)| == |q| + 2 && |Reversed(n)| == |n|
  {
  }

  lemma EndsLength(q: Text, s: Text)
    requires EndsWith(q, s)
    ensures |s| <= |q| && (|s| == |q| ==> s == q)
  {
    if |s| == |q| {
      assert q[0..] == q;
    }
  }

  lemma SubRuleMeans(rule: Text, q: Text)
    requires |rule| > 1 && rule[0] == STAR && rule[1] == DOT && |rule| + 3 <= MAX_CONF_CNAME_LEN
    ensures Matched(SetupKey(rule, MAX_CONF_CNAME_LEN).value, q) <==> Means(rule, Lowered(q))
  {
    hide Norm, Reversed, EndsWith, SetupKey, Lowered;
    MarkedKey(rule);
    NormBehindDot(rule[1..]);
    assert rule[1..][1..] == rule[2..];
    var n, p := Norm(rule[2..]), Lowered(q);
    KeyLengths(n, q);
    if n == [] {
      EmptyKey(q);
    } else {
      ReversedCons(DOT, n);
      assert [DOT] + Reversed([DOT] + n) == [DOT] + Reversed(n) + [DOT];
      KeyPrefix(n, p);
      if EndsWith(p, [DOT] + n) {
        EndsLength(p, [DOT] + n);
      }
    }
  }

  lemma EmptyKey(q: Text)
    ensures Reversed([]) == [] && [DOT] + [] == [DOT] && [DOT] <= QueryKey(q)
  {
  }

  lemma RootRuleMeans(rule: Text, q: Text)
    requires |rule| > 1 && rule[0] == DASH && rule[1] == DOT && |rule| + 3 <= MAX_CONF_CNAME_LEN
    ensures Matched(SetupKey(rule, MAX_CONF_CNAME_LEN).value, q) <==> Means(rule, Lowered(q))
  {
    hide Norm, Reversed, EndsWith, SetupKey, Lowered;
    MarkedKey(rule);
    NormBehindDot(rule[1..]);
    assert rule[1..][1..] == rule[2..];
    var n, p := Norm(rule[2..]), Lowered(q);
    KeyLengths(n, q);
    if n == [] {
      EmptyKey(q);
    } else {
      ReversedCons(DOT, n);
      assert ([DOT] + (Reversed(n) + [DOT]))[..|n| + 1] == [DOT] + Reversed(n);
      PrefixOfKey(Reversed(n), p);
      ReversedPrefix(n, p);
      ReversedCons(DOT, p);
      if EndsWith(p, n) {
        EndsLength(p, n);
      }
      if Reversed(n) == Reversed(p) + [DOT] {
        ReversedInjective(n, [DOT] + p);
      }
      if p == n {
        ReversedPrefix(n, n);
      }
    }
  }

  lemma WildRuleMeans(rule: Text, q: Text)
    requires |rule| > 1 && (rule[0] == STAR || rule[0] == DASH) && rule[1] != DOT && |rule| + 3 <= MAX_CONF_CNAME_LEN
    ensures Matched(SetupKey(rule, MAX_CONF_CNAME_LEN).value, q) <==> Means(rule, Lowered(q))
  {
    hide Norm, Reversed, EndsWith, SetupKey, Lowered;
    MarkedKey(rule);
    if !(rule[0] == STAR && |rule| > 2 && rule[1] == DASH && rule[2] == DOT) {
      var n, p := Norm(rule[1..]), Lowered(q);
      PrefixOfKey(Reversed(n), p);
      ReversedPrefix(n, p);
      NormBehind(rule[1..]);
      assert n[0] == Lower(rule[1]) != DOT;
      ReversedCons(DOT, p);
      assert ([DOT] + p)[0] == DOT;
      if Reversed(n) == Reversed(p) + [DOT] {
        ReversedInjective(n, [DOT] + p);
      }
    }
  }

  lemma PlainRuleMeans(rule: Text, q: Text)
    requires Plain(rule) && |rule| + 3 <= MAX_CONF_CNAME_LEN
    ensures Matched(SetupKey(rule, MAX_CONF_CNAME_LEN).value, q) <==> Means(rule, Lowered(q))
  {
    hide Norm, Reversed, EndsWith, SetupKey, Lowered;
    PlainKey(rule);
    EmptyKey(q);
    if Norm(rule) != [] {
      KeyPrefix(Norm(rule), Lowered(q));
    }
  }

  /**
   * Which queries a configured rule applies to, said of the texts alone: "d" takes d and everything
   * below it, "*.d" only what is below, "-.d" only d itself, "*x" and "-x" every name ending in x,
   * and "*-.d" nothing at all.
   */
  lemma AppliesIffMeans(rule: Text, q: Text)
    requires |rule| + 3 <= MAX_CONF_CNAME_LEN
    ensures Applies(SetupKey(rule, MAX_CONF_CNAME_LEN).value, q) <==> |q| < MAX_CNAME_LEN - 3 && Means(rule, Lowered(q))
  {
    hide Matched, Means, SetupKey;
    if Plain(rule) {
      PlainRuleMeans(rule, q);
    } else if rule[1] != DOT {
      WildRuleMeans(rule, q);
    } else if rule[0] == STAR {
      SubRuleMeans(rule, q);
    } else {
      RootRuleMeans(rule, q);
    }
  }
}
