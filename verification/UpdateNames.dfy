/** What overwriting one name in place does to every name of the buffer. */
module UpdateNames {
  import opened Bytes
  import opened NameDecode
  import opened NameEncode
  import opened NameRoundTrip
  import opened NameTheorems
  import opened Layout
  import opened Update

  predicate CaseOf(a: Name, b: Name) {
    |a| == |b| && forall i :: 0 <= i < |a| ==> CaseEq(a[i], b[i])
  }

  /** b' differs from b only in the case of label text. */
  ghost predicate Recased(b: seq<byte>, b': seq<byte>, m: seq<Kind>) {
    && |b'| == |b| == |m|
    && forall i :: 0 <= i < |b| ==> b'[i] == b[i] || (m[i] == Char && Lower(b'[i]) == Lower(b[i]))
  }

  lemma RecasedTransitive(b: seq<byte>, b1: seq<byte>, b2: seq<byte>, m: seq<Kind>)
    requires Recased(b, b1, m) && Recased(b1, b2, m)
    ensures Recased(b, b2, m)
  {
  }

  // ---- Labels and text ----

  lemma {:induction false} PiecesOfJoin(n: Name)
    requires n != [] && WellFormed(n)
    ensures Pieces(Join(n)) == n
    decreases |n|
  {
    FirstDot(n);
    JoinHead(n);
    var t := Join(n);
    assert DotAt(t) == |n[0]|;
    assert t[..|n[0]|] == n[0];
    if |n| > 1 {
      assert t[|n[0]| + 1..] == Join(n[1..]);
      PiecesOfJoin(n[1..]);
    }
    assert n == [n[0]] + n[1..];
  }

  lemma LabelsOfJoin(n: Name)
    requires WellFormed(n)
    ensures Labels(Join(n)) == n
  {
    JoinEmpty(n);
    if n != [] {
      PiecesOfJoin(n);
    }
  }

  lemma CaseOfTail(a: Name, b: Name)
    requires CaseOf(a, b) && a != []
    ensures CaseEq(a[0], b[0]) && CaseOf(a[1..], b[1..])
  {
    hide CaseEq;
  }

  lemma {:induction false} JoinCase(a: Name, b: Name)
    requires CaseOf(a, b)
    ensures CaseEq(Join(a), Join(b))
    decreases |a|
  {
    if a != [] {
      CaseOfTail(a, b);
      JoinCase(a[1..], b[1..]);
      JoinHead(a);
      JoinHead(b);
    }
  }

  lemma CaseKeepsLabel(a: Text, b: Text)
    requires CaseEq(a, b) && IsLabel(b)
    ensures IsLabel(a)
  {
    forall i | 0 <= i < |a| ensures a[i] != DOT && a[i] != 0 {
      assert Lower(a[i]) == Lower(b[i]);
    }
  }

  lemma {:induction false} CaseKeepsPieces(a: Text, b: Text)
    requires CaseEq(a, b)
    ensures CaseOf(Pieces(a), Pieces(b))
    decreases |a|
  {
    hide CaseEq, Pieces;
    var k := DotAt(b);
    CaseEqLength(a, b);
    CaseKeepsDots(a, b, k);
    CaseEqSlice(a, b, 0, k);
    PiecesStep(a);
    PiecesStep(b);
    if k < |b| {
      CaseEqSlice(a, b, k + 1, |b|);
      CaseKeepsPieces(a[k + 1..], b[k + 1..]);
      CaseOfCons(a[..k], b[..k], Pieces(a[k + 1..]), Pieces(b[k + 1..]));
    }
  }

  lemma {:induction false} PiecesStep(t: Text)
    ensures var k := DotAt(t); Pieces(t) == if k == |t| then [t] else [t[..k]] + Pieces(t[k + 1..])
  {
    hide DotAt;
  }

  lemma CaseOfCons(x: Text, y: Text, a: Name, b: Name)
    requires CaseEq(x, y) && CaseOf(a, b)
    ensures CaseOf([x] + a, [y] + b)
  {
    hide CaseEq;
  }

  lemma CaseEqSlice(a: Text, b: Text, i: nat, j: nat)
    requires CaseEq(a, b) && i <= j <= |a|
    ensures CaseEq(a[i..j], b[i..j]) && (j == |a| ==> CaseEq(a[i..], b[i..])) && (i == 0 ==> CaseEq(a[..j], b[..j]))
  {
  }

  lemma CaseKeepsDots(a: Text, b: Text, k: nat)
    requires CaseEq(a, b) && k == DotAt(b)
    ensures DotAt(a) == k
  {
    forall i | 0 <= i < |a| ensures a[i] == DOT <==> b[i] == DOT {
      assert Lower(a[i]) == Lower(b[i]);
    }
  }

  lemma CaseKeepsLabels(a: Text, b: Text)
    requires CaseEq(a, b)
    ensures CaseOf(Labels(a), Labels(b))
  {
    CaseKeepsPieces(a, b);
  }

  // ---- Names under recasing ----

  lemma LabelRecased(b: seq<byte>, b': seq<byte>, m: seq<Kind>, p: nat, l: Text) returns (l': Text)
    requires Recased(b, b', m) && p < |b| && m[p] == Length && LabelAt(b, m, p, l)
    ensures LabelAt(b', m, p, l') && CaseEq(l', l)
  {
    l' := b'[p + 1..p + 1 + |l|];
    forall i | 0 <= i < |l| ensures Lower(l'[i]) == Lower(l[i]) {
      assert l[i] == b[p + 1..p + 1 + |l|][i] == b[p + 1 + i];
    }
    CaseKeepsLabel(l', l);
  }

  /** Recasing label text respells every name, and changes none of them in any other way. */
  lemma {:induction false} NameRecased(b: seq<byte>, b': seq<byte>, m: seq<Kind>, p: nat, n: Name) returns (n': Name)
    requires Recased(b, b', m) && NameAt(b, m, p, n)
    ensures NameAt(b', m, p, n') && CaseOf(n', n) && Cursor(b', p) == Cursor(b, p) && b'[p] == b[p]
    decreases |n|, p
  {
    hide LabelAt, CaseEq;
    if n == [] {
      n' := [];
    } else if b[p] >= 0xC0 {
      var t := Target(b, p);
      assert Target(b', p) == t && b'[t] == b[t] by {
        NameMarked(b, m, t, n);
      }
      n' := NameRecased(b, b', m, t, n);
      NamePointer(b', m, p, n');
    } else {
      LabelNonEmpty(b, m, p, n[0]);
      LabelLength(b, m, p, n[0]);
      var l' := LabelRecased(b, b', m, p, n[0]);
      LabelLength(b', m, p, l');
      var rest := NameRecased(b, b', m, p + 1 + |n[0]|, n[1..]);
      n' := [l'] + rest;
      NameLabel(b', m, p, l', rest);
      assert n == [n[0]] + n[1..];
    }
  }

  lemma LabelLength(b: seq<byte>, m: seq<Kind>, p: nat, l: Text)
    requires p < |b| == |m| && LabelAt(b, m, p, l)
    ensures b[p] == |l| && 0 < b[p] < 64 && p + 1 + |l| < |b|
  {
  }

  lemma NameIsRecased(b: seq<byte>, b': seq<byte>, m: seq<Kind>, p: nat, e: nat, t: Text) returns (t': Text)
    requires Recased(b, b', m) && NameIs(b, m, p, e, t)
    ensures NameIs(b', m, p, e, t') && CaseEq(t', t)
  {
    hide NameAt, Cursor, Labels, Join, CaseEq, CaseOf, Recased, WellFormed;
    var n' := NameRecased(b, b', m, p, Labels(t));
    t' := Join(n');
    SpelledWellFormed(b', m, p, n');
    LabelsOfJoin(n');
    JoinCase(n', Labels(t));
    JoinLabels(t);
  }

  /** A position spells at most one name. */
  lemma {:induction false} NameUnique(b: seq<byte>, m: seq<Kind>, p: nat, a: Name, n: Name)
    requires NameAt(b, m, p, a) && NameAt(b, m, p, n)
    ensures a == n
    decreases |a|, p
  {
    if a != [] && n != [] {
      if b[p] >= 0xC0 {
        NameUnique(b, m, Target(b, p), a, n);
      } else {
        assert a[0] == n[0];
        NameUnique(b, m, p + 1 + |a[0]|, a[1..], n[1..]);
        assert a == [a[0]] + a[1..] && n == [n[0]] + n[1..];
      }
    } else {
      RootByte(b, m, p, a);
      RootByte(b, m, p, n);
    }
  }

  lemma RootByte(b: seq<byte>, m: seq<Kind>, p: nat, n: Name)
    requires NameAt(b, m, p, n)
    ensures b[p] == 0 <==> n == []
  {
  }

  /** Labels that start at different places share no byte. */
  lemma LabelsApart(b: seq<byte>, m: seq<Kind>, p: nat, l: Text, q: nat, k: Text)
    requires p < |b| == |m| && q < |b| && m[p] == Length && m[q] == Length && p != q
    requires LabelAt(b, m, p, l) && LabelAt(b, m, q, k)
    ensures p + |l| < q || q + |k| < p
  {
  }

  // ---- The overwriting loop on a spelled name ----

  /** The loop is at the labels qn of the query, and what is spelled at p matches them up to case. */
  ghost predicate AtLabels(b: seq<byte>, m: seq<Kind>, p: nat, n: Name, qn: Name, jump: nat, processed: nat, output: nat, domain: Text) {
    && NameAt(b, m, p, n) && CaseOf(qn, n) && (jump == 0 || (jump == 1 && b[p] < 64))
    && processed != 1 && output == (if processed == 0 then 0 else processed - 1)
    && if qn == [] then processed == |domain| + 1 || (processed == 0 && domain == [])
       else processed + |Join(qn)| == |domain| && domain[processed..] == Join(qn)
  }

  lemma WriteLabel(b: seq<byte>, m: seq<Kind>, p: nat, l: Text, l': Text)
    requires p < |b| == |m| && m[p] == Length && LabelAt(b, m, p, l) && CaseEq(l', l)
    ensures var b1 := Write(b, p + 1, l'); Recased(b, b1, m) && LabelAt(b1, m, p, l')
  {
    var b1 := Write(b, p + 1, l');
    CaseKeepsLabel(l', l);
    forall i | p < i <= p + |l| ensures m[i] == Char && Lower(b1[i]) == Lower(b[i]) {
      assert b1[i] == b1[p + 1..p + 1 + |l'|][i - p - 1] == l'[i - p - 1];
      assert b[i] == b[p + 1..p + 1 + |l|][i - p - 1] == l[i - p - 1];
    }
  }

  lemma DomainLabel(qn: Name, processed: nat, domain: Text)
    requires qn != [] && processed + |Join(qn)| == |domain| && domain[processed..] == Join(qn)
    ensures processed + |qn[0]| <= |domain| && domain[processed..processed + |qn[0]|] == qn[0]
    ensures |qn| == 1 ==> processed + |qn[0]| + 1 == |domain| + 1
    ensures |qn| > 1 ==> processed + |qn[0]| + 1 + |Join(qn[1..])| == |domain|
                         && domain[processed + |qn[0]| + 1..] == Join(qn[1..])
  {
    JoinHead(qn);
    assert domain[processed..processed + |qn[0]|] == domain[processed..][..|qn[0]|];
    if |qn| > 1 {
      assert domain[processed + |qn[0]| + 1..] == domain[processed..][|qn[0]| + 1..];
    }
  }

  /** At a literal label: it is overwritten, and the loop is at the next one. */
  lemma AtNextLabel(b: seq<byte>, m: seq<Kind>, p: nat, n: Name, qn: Name, jump: nat, processed: nat, output: nat, domain: Text)
    returns (b1: seq<byte>, rest: Name)
    requires AtLabels(b, m, p, n, qn, jump, processed, output, domain) && 0 < b[p] < 64
    ensures n != [] && qn != [] && LabelAt(b, m, p, n[0]) && m[p] == Length && b1 == Write(b, p + 1, qn[0]) && |qn[0]| == |n[0]|
    ensures Recased(b, b1, m) && LabelAt(b1, m, p, qn[0]) && |rest| == |n| - 1
    ensures var len := |qn[0]|; var output1 := (if output > 0 then output + 1 else 0) + len;
            && AtLabels(b1, m, p + 1 + len, rest, qn[1..], 0, processed + len + 1, output1, domain)
            && UpdateLoop(b, p, jump, processed, output, domain)
               == UpdateLoop(b1, p + 1 + len, 0, processed + len + 1, output1, domain)
  {
    hide LabelAt, CaseEq, Recased, Write, UpdateLoop, Join, Cursor;
    RootByte(b, m, p, n);
    NameMarked(b, m, p, n);
    CaseOfTail(qn, n);
    LabelLength(b, m, p, n[0]);
    CaseEqLength(qn[0], n[0]);
    DomainLabel(qn, processed, domain);
    UpdateStep(b, p, jump, processed, output, domain);
    WriteLabel(b, m, p, n[0], qn[0]);
    b1 := Write(b, p + 1, qn[0]);
    rest := NameRecased(b, b1, m, p + 1 + |n[0]|, n[1..]);
    CaseOfMeets(qn[1..], n[1..], rest);
  }

  lemma CaseEqLength(a: Text, b: Text)
    requires CaseEq(a, b)
    ensures |a| == |b|
  {
  }

  lemma CaseOfMeets(a: Name, b: Name, c: Name)
    requires CaseOf(a, b) && CaseOf(c, b)
    ensures CaseOf(a, c)
  {
    forall i | 0 <= i < |a| ensures CaseEq(a[i], c[i]) {
      assert CaseEq(a[i], b[i]) && CaseEq(c[i], b[i]);
    }
  }

  /** At a pointer: the loop follows it. */
  lemma AtTarget(b: seq<byte>, m: seq<Kind>, p: nat, n: Name, qn: Name, jump: nat, processed: nat, output: nat, domain: Text)
    requires AtLabels(b, m, p, n, qn, jump, processed, output, domain) && b[p] >= 64
    ensures n != [] && p + 2 <= |b| && b[p] >= 0xC0 && Target(b, p) < p && jump == 0
    ensures AtLabels(b, m, Target(b, p), n, qn, jump + 1, processed, output, domain)
    ensures UpdateLoop(b, p, jump, processed, output, domain) == UpdateLoop(b, Target(b, p), jump + 1, processed, output, domain)
  {
    hide CaseEq, UpdateLoop, Join;
    UpdateStep(b, p, jump, processed, output, domain);
  }

  lemma AtRoot(b: seq<byte>, m: seq<Kind>, p: nat, n: Name, qn: Name, jump: nat, processed: nat, output: nat, domain: Text)
    requires AtLabels(b, m, p, n, qn, jump, processed, output, domain) && b[p] == 0
    ensures n == [] && qn == [] && UpdateLoop(b, p, jump, processed, output, domain) == Upd(b, true)
  {
    hide CaseEq, UpdateLoop, Join;
    RootByte(b, m, p, n);
    UpdateStep(b, p, jump, processed, output, domain);
  }

  /** The loop succeeds, and changes the case of label text only. */
  lemma {:induction false} LoopRecases(b: seq<byte>, m: seq<Kind>, p: nat, n: Name, qn: Name, jump: nat, processed: nat, output: nat, domain: Text)
    requires AtLabels(b, m, p, n, qn, jump, processed, output, domain)
    ensures var r := UpdateLoop(b, p, jump, processed, output, domain); r.ok && Recased(b, r.b, m)
    decreases |n|, p
  {
    hide UpdateLoop, AtLabels, Recased;
    AtLabelsName(b, m, p, n, qn, jump, processed, output, domain);
    if b[p] == 0 {
      AtRoot(b, m, p, n, qn, jump, processed, output, domain);
      RecasedSelf(b, m, p, n, qn, jump, processed, output, domain);
    } else if b[p] >= 64 {
      AtTarget(b, m, p, n, qn, jump, processed, output, domain);
      LoopRecases(b, m, Target(b, p), n, qn, jump + 1, processed, output, domain);
    } else {
      var b1, rest := AtNextLabel(b, m, p, n, qn, jump, processed, output, domain);
      var len, output1 := |qn[0]|, (if output > 0 then output + 1 else 0) + |qn[0]|;
      LoopRecases(b1, m, p + 1 + len, rest, qn[1..], 0, processed + len + 1, output1, domain);
      RecasedTransitive(b, b1, UpdateLoop(b, p, jump, processed, output, domain).b, m);
    }
  }

  lemma RecasedSelf(b: seq<byte>, m: seq<Kind>, p: nat, n: Name, qn: Name, jump: nat, processed: nat, output: nat, domain: Text)
    requires AtLabels(b, m, p, n, qn, jump, processed, output, domain)
    ensures Recased(b, b, m)
  {
  }

  lemma LabelUnchanged(b: seq<byte>, b1: seq<byte>, m: seq<Kind>, p: nat, l: Text, l': Text, q: nat, k: Text)
    requires p < |b| == |m| && q < |b| && m[p] == Length && m[q] == Length && p != q && |l'| == |l|
    requires LabelAt(b, m, p, l) && LabelAt(b, m, q, k) && b1 == Write(b, p + 1, l')
    ensures LabelAt(b1, m, q, k)
  {
    LabelsApart(b, m, p, l, q, k);
    WriteSpares(b, p + 1, l', q + 1, q + 1 + |k|);
  }

  /** A label in front of more labels than the loop still has to visit is not touched. */
  lemma {:induction false} LoopSpares(b: seq<byte>, m: seq<Kind>, p: nat, n: Name, qn: Name, jump: nat, processed: nat, output: nat, domain: Text, q: nat, s: Name, k: Text)
    requires AtLabels(b, m, p, n, qn, jump, processed, output, domain)
    requires NameAt(b, m, q, s) && |s| > |n| && LabelAt(b, m, q, k)
    ensures LabelAt(UpdateLoop(b, p, jump, processed, output, domain).b, m, q, k)
    decreases |n|, p
  {
    hide UpdateLoop, AtLabels, Recased, NameAt, LabelAt, Cursor;
    NameMarked(b, m, q, s);
    LabelLength(b, m, q, k);
    AtLabelsName(b, m, p, n, qn, jump, processed, output, domain);
    if b[p] == 0 {
      AtRoot(b, m, p, n, qn, jump, processed, output, domain);
    } else if b[p] >= 64 {
      AtTarget(b, m, p, n, qn, jump, processed, output, domain);
      LoopSpares(b, m, Target(b, p), n, qn, jump + 1, processed, output, domain, q, s, k);
    } else {
      NotTheSame(b, m, p, n, qn, jump, processed, output, domain, q, s);
      var b1, rest := AtNextLabel(b, m, p, n, qn, jump, processed, output, domain);
      var len, output1 := |qn[0]|, (if output > 0 then output + 1 else 0) + |qn[0]|;
      LabelUnchanged(b, b1, m, p, n[0], qn[0], q, k);
      var s1 := NameRecased(b, b1, m, q, s);
      LoopSpares(b1, m, p + 1 + len, rest, qn[1..], 0, processed + len + 1, output1, domain, q, s1, k);
    }
  }

  lemma NotTheSame(b: seq<byte>, m: seq<Kind>, p: nat, n: Name, qn: Name, jump: nat, processed: nat, output: nat, domain: Text, q: nat, s: Name)
    requires AtLabels(b, m, p, n, qn, jump, processed, output, domain) && NameAt(b, m, q, s) && |s| > |n|
    ensures p != q
  {
    if p == q {
      NameUnique(b, m, p, n, s);
    }
  }

  /** After the loop the name at p is spelled as the query spells it. */
  lemma {:induction false} LoopSpells(b: seq<byte>, m: seq<Kind>, p: nat, n: Name, qn: Name, jump: nat, processed: nat, output: nat, domain: Text)
    requires AtLabels(b, m, p, n, qn, jump, processed, output, domain)
    ensures var r := UpdateLoop(b, p, jump, processed, output, domain);
            NameAt(r.b, m, p, qn) && Cursor(r.b, p) == Cursor(b, p)
    decreases |n|, p
  {
    hide UpdateLoop, AtLabels, Recased, NameAt, LabelAt, Cursor;
    LoopRecases(b, m, p, n, qn, jump, processed, output, domain);
    AtLabelsName(b, m, p, n, qn, jump, processed, output, domain);
    var r := UpdateLoop(b, p, jump, processed, output, domain).b;
    var n' := NameRecased(b, r, m, p, n);
    if b[p] == 0 {
      AtRoot(b, m, p, n, qn, jump, processed, output, domain);
    } else if b[p] >= 64 {
      AtTarget(b, m, p, n, qn, jump, processed, output, domain);
      LoopSpells(b, m, Target(b, p), n, qn, jump + 1, processed, output, domain);
      PointerFollowed(b, r, m, p, n, qn, n');
    } else {
      var b1, rest := AtNextLabel(b, m, p, n, qn, jump, processed, output, domain);
      var len, output1 := |qn[0]|, (if output > 0 then output + 1 else 0) + |qn[0]|;
      LoopSpells(b1, m, p + 1 + len, rest, qn[1..], 0, processed + len + 1, output1, domain);
      var n1 := NameRecased(b, b1, m, p, n);
      LoopSpares(b1, m, p + 1 + len, rest, qn[1..], 0, processed + len + 1, output1, domain, p, n1, qn[0]);
      NameLabel(r, m, p, qn[0], qn[1..]);
      assert qn == [qn[0]] + qn[1..];
      assert Cursor(r, p) == Cursor(b, p);
    }
  }

  lemma AtLabelsName(b: seq<byte>, m: seq<Kind>, p: nat, n: Name, qn: Name, jump: nat, processed: nat, output: nat, domain: Text)
    requires AtLabels(b, m, p, n, qn, jump, processed, output, domain)
    ensures NameAt(b, m, p, n) && CaseOf(qn, n) && |qn| == |n| && p < |b|
  {
  }

  lemma PointerFollowed(b: seq<byte>, r: seq<byte>, m: seq<Kind>, p: nat, n: Name, qn: Name, n': Name)
    requires NameAt(b, m, p, n) && NameAt(r, m, p, n') && Recased(b, r, m) && b[p] >= 64 && n != [] && qn != []
    requires NameAt(r, m, Target(b, p), qn)
    ensures NameAt(r, m, p, qn)
  {
    assert r[p] == b[p] && r[p + 1] == b[p + 1];
  }

  lemma NameCases(b: seq<byte>, m: seq<Kind>, q: nat, s: Name)
    requires NameAt(b, m, q, s) && s != []
    ensures q < |b| == |m| && m[q] == Length
    ensures if b[q] >= 0xC0 then q + 2 <= |b| && m[q + 1] == Length && PointsDown(b, q) && NameAt(b, m, Target(b, q), s)
            else LabelAt(b, m, q, s[0]) && NameAt(b, m, q + 1 + |s[0]|, s[1..])
  {
  }

  /** b1 is b with the label l at p overwritten by l2. */
  ghost predicate LabelWritten(b: seq<byte>, b1: seq<byte>, m: seq<Kind>, p: nat, l: Text, l2: Text) {
    && p < |b| == |m| && m[p] == Length && LabelAt(b, m, p, l) && |l2| == |l|
    && b1 == Write(b, p + 1, l2) && Recased(b, b1, m) && LabelAt(b1, m, p, l2)
  }

  /** A name already spelled as (a tail of) the query stays so, even where it shares labels with the name overwritten. */
  lemma {:induction false} TailsKept(b: seq<byte>, b1: seq<byte>, m: seq<Kind>, p: nat, n: Name, qn: Name, Q: Name, q: nat, s: Name)
    requires NameAt(b, m, p, n) && n != [] && |qn| == |n| && LabelWritten(b, b1, m, p, n[0], qn[0])
    requires IsSuffix(qn, Q) && IsSuffix(s, Q) && NameAt(b, m, q, s)
    ensures NameAt(b1, m, q, s)
    decreases |s|, q
  {
    hide NameAt, LabelAt, Recased, Write, Cursor, IsSuffix, PointsDown, Target;
    if s == [] {
      var s1 := NameRecased(b, b1, m, q, s);
    } else {
      NameCases(b, m, q, s);
      if b[q] >= 0xC0 {
        PointsBelow(b, q);
        RecasedIs(b, b1, m, q);
        TailsKept(b, b1, m, p, n, qn, Q, Target(b, q), s);
        var t1 := NameRecased(b, b1, m, Target(b, q), s);
        PointsStill(b, b1, q);
        NamePointer(b1, m, q, s);
      } else {
        TailTail(s, Q);
        TailsKept(b, b1, m, p, n, qn, Q, q + 1 + |s[0]|, s[1..]);
        if q == p {
          NameUnique(b, m, p, n, s);
          TailsEqual(qn, s, Q);
        } else {
          LabelUnchanged(b, b1, m, p, n[0], qn[0], q, s[0]);
        }
        RecasedLength(b, b1, m);
        NameLabel(b1, m, q, s[0], s[1..]);
        assert s == [s[0]] + s[1..];
      }
    }
  }

  lemma PointsBelow(b: seq<byte>, q: nat)
    requires q + 2 <= |b| && PointsDown(b, q)
    ensures Target(b, q) < q
  {
  }

  lemma PointsStill(b: seq<byte>, b1: seq<byte>, q: nat)
    requires q + 2 <= |b| == |b1| && PointsDown(b, q) && Target(b1, q) == Target(b, q) && b1[Target(b, q)] == b[Target(b, q)]
    ensures PointsDown(b1, q)
  {
  }

  lemma RecasedLength(b: seq<byte>, b1: seq<byte>, m: seq<Kind>)
    requires Recased(b, b1, m)
    ensures |b1| == |b| == |m|
  {
  }

  lemma WriteLabelWritten(b: seq<byte>, m: seq<Kind>, p: nat, l: Text, l2: Text)
    requires p < |b| == |m| && m[p] == Length && LabelAt(b, m, p, l) && CaseEq(l2, l)
    ensures p + 1 + |l2| <= |b| && LabelWritten(b, Write(b, p + 1, l2), m, p, l, l2)
  {
    hide Write;
    CaseEqLength(l2, l);
    LabelLength(b, m, p, l);
    WriteLabel(b, m, p, l, l2);
  }

  lemma RecasedIs(b: seq<byte>, b': seq<byte>, m: seq<Kind>, p: nat)
    requires Recased(b, b', m) && p + 2 <= |b| && m[p] == m[p + 1] == Length
    ensures b'[p] == b[p] && b'[p + 1] == b[p + 1] && Target(b', p) == Target(b, p)
  {
  }

  lemma TailTail(s: Name, Q: Name)
    requires IsSuffix(s, Q) && s != []
    ensures IsSuffix(s[1..], Q)
  {
    assert Q[|Q| - |s|..][1..] == Q[|Q| - (|s| - 1)..];
  }

  lemma TailsEqual(a: Name, b: Name, Q: Name)
    requires IsSuffix(a, Q) && IsSuffix(b, Q) && |a| == |b|
    ensures a == b
  {
  }

  lemma {:induction false} LoopKeepsTails(b: seq<byte>, m: seq<Kind>, p: nat, n: Name, qn: Name, jump: nat, processed: nat, output: nat, domain: Text, Q: Name, q: nat, s: Name)
    requires AtLabels(b, m, p, n, qn, jump, processed, output, domain)
    requires IsSuffix(qn, Q) && IsSuffix(s, Q) && NameAt(b, m, q, s)
    ensures NameAt(UpdateLoop(b, p, jump, processed, output, domain).b, m, q, s)
    decreases |n|, p
  {
    hide UpdateLoop, AtLabels, Recased, NameAt, LabelAt, IsSuffix;
    AtLabelsName(b, m, p, n, qn, jump, processed, output, domain);
    if b[p] == 0 {
      AtRoot(b, m, p, n, qn, jump, processed, output, domain);
    } else if b[p] >= 64 {
      AtTarget(b, m, p, n, qn, jump, processed, output, domain);
      LoopKeepsTails(b, m, Target(b, p), n, qn, jump + 1, processed, output, domain, Q, q, s);
    } else {
      var b1, rest := AtNextLabel(b, m, p, n, qn, jump, processed, output, domain);
      var len, output1 := |qn[0]|, (if output > 0 then output + 1 else 0) + |qn[0]|;
      CaseOfTail(qn, n);
      WriteLabelWritten(b, m, p, n[0], qn[0]);
      TailsKept(b, b1, m, p, n, qn, Q, q, s);
      TailTail(qn, Q);
      LoopKeepsTails(b1, m, p + 1 + len, rest, qn[1..], 0, processed + len + 1, output1, domain, Q, q, s);
    }
  }
}
