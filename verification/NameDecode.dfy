/**
 * Reading a compressed domain name (src/dns.c, _dns_get_domain_from_packet).
 *
 * Expand is the specification of the loop; DecodeName is the loop itself, over arrays.
 * Walk is an independent reading of section 4.1.4 of RFC 1035, and Expand is proved to agree
 * with it in both directions.
 */
module NameDecode {
  import opened Bytes

  type Text = seq<byte>

  const DOT: byte := 46
  const MAX_JUMPS: nat := 32
  const MAX_CNAME_LEN: nat := 256

  /** Text separated from what is already in the output by a dot. */
  function Dotted(out: Text): Text {
    if out == [] then [] else out + [DOT]
  }

  /** The output after the label at p has been copied behind `out`. */
  function Grown(b: seq<byte>, p: nat, out: Text): (r: Text)
    requires p < |b| && p + 1 + b[p] <= |b|
    ensures |r| == |Dotted(out)| + b[p] as int
  {
    Dotted(out) + b[p + 1..p + 1 + b[p]]
  }

  function Target(b: seq<byte>, p: nat): (t: nat)
    requires p + 2 <= |b|
    ensures t < 0x4000
  {
    Short(b, p) % 0x4000
  }

  /**
   * What the decoder has in its output buffer when it returns 0, or None when it returns -1;
   * `out` is the output so far and `jump` the pointers followed since the last label.
   */
  function Expand(b: seq<byte>, p: nat, out: Text, size: int, jump: nat): Option<Text>
    decreases size - |out|, MAX_JUMPS + 1 - jump
  {
    if p >= |b| || |out| >= size - 1 || jump > MAX_JUMPS then None
    else if b[p] == 0 then Some(out)
    else if b[p] >= 0xC0 then
      if p + 2 > |b| then None else Expand(b, Target(b, p), out, size, jump + 1)
    else if |Dotted(out)| + b[p] >= size - 1 || p + 1 + b[p] > |b| then None
    else Expand(b, p + 1 + b[p], Grown(b, p, out), size, 0)
  }

  /** Where the caller's cursor is left: behind the terminator, or behind the first pointer. */
  function Cursor(b: seq<byte>, p: nat): nat
    decreases |b| - p
  {
    if p >= |b| then p
    else if b[p] == 0 then p + 1
    else if b[p] >= 0xC0 then p + 2
    else Cursor(b, p + 1 + b[p])
  }

  method Memcpy(dest: array<byte>, at: nat, src: seq<byte>, from: nat, len: nat)
    requires at + len <= dest.Length && from + len <= |src|
    modifies dest
    ensures dest[..at + len] == old(dest[..at]) + src[from..from + len]
    ensures forall i :: at + len <= i < dest.Length ==> dest[i] == old(dest[i])
  {
    forall i | 0 <= i < len {
      dest[at + i] := src[from + i];
    }
  }

  /**
   * The label branch of the loop: separator, bounded copy, advance. The copy is cut short when
   * the label does not fit, and the caller's next iteration then gives up.
   */
  method AppendLabel(packet: seq<byte>, at: nat, output: array<byte>, oldLen: nat, size: nat)
    returns (ok: bool, ptr: nat, outputLen: nat)
    requires at < |packet| && size <= output.Length
    requires 0 < packet[at] < 0xC0 && oldLen + 1 < size
    modifies output
    ensures ptr == at + 1 + packet[at] && outputLen == |Dotted(old(output[..oldLen]))| + packet[at] as int
    ensures !ok ==> ptr > |packet| || outputLen >= size
    ensures ok && outputLen < size ==> ptr <= |packet|
    ensures ok && outputLen < size ==> output[..outputLen] == Grown(packet, at, old(output[..oldLen]))
    ensures forall i :: size <= i < output.Length ==> output[i] == old(output[i])
  {
    var len := packet[at];
    outputLen := oldLen;
    if outputLen > 0 {
      output[outputLen] := DOT;
      outputLen := outputLen + 1;
    }
    ok, ptr := true, at + 1;
    assert output[..outputLen] == Dotted(old(output[..oldLen]));
    if outputLen < size - 1 {
      var copyLen := if len < size - outputLen then len else size - 1 - outputLen;
      if ptr + copyLen > |packet| {
        ok := false;
      } else {
        Memcpy(output, outputLen, packet, ptr, copyLen);
      }
    }
    ptr := ptr + len;
    outputLen := outputLen + len;
  }

  /**
   * _dns_get_domain_from_packet. `next` is *domain_ptr, which is also moved by a failing call
   * that had already met a pointer.
   */
  method DecodeName(packet: seq<byte>, start: nat, output: array<byte>, size: nat)
    returns (ret: int, next: nat, outputLen: nat)
    requires size <= output.Length
    modifies output
    ensures ret == 0 || ret == -1
    ensures ret == 0 <==> Expand(packet, start, [], size, 0).Some?
    ensures ret == 0 ==> outputLen + 1 < size
                         && Some(output[..outputLen]) == Expand(packet, start, [], size, 0)
                         && output[outputLen] == 0
    ensures ret == 0 ==> next == Cursor(packet, start) && start < next <= |packet|
    ensures forall i :: size <= i < output.Length ==> output[i] == old(output[i])
  {
    var ptr: nat, jump: nat, isCompressed := start, 0, false;
    next, outputLen := start, 0;
    ghost var out, result := [], Expand(packet, start, [], size, 0);
    while true
      invariant if outputLen < size then output[..outputLen] == out && Expand(packet, ptr, out, size, jump) == result
                else result == None
      invariant Cursor(packet, start) == if isCompressed then next else Cursor(packet, ptr)
      invariant jump <= MAX_JUMPS + 1
      invariant forall i :: size <= i < output.Length ==> output[i] == old(output[i])
      decreases size - outputLen, MAX_JUMPS + 1 - jump
    {
      if ptr >= |packet| || outputLen >= size - 1 || jump > MAX_JUMPS {
        return -1, next, outputLen;
      }
      if packet[ptr] == 0 {
        output[outputLen] := 0;
        ptr := ptr + 1;
        break;
      }
      if packet[ptr] >= 0xC0 {
        if ptr + 2 > |packet| {
          return -1, next, outputLen;
        }
        if !isCompressed {
          next := ptr + 2;
        }
        ptr := Short(packet, ptr) % 0x4000;
        if ptr > |packet| {
          return -1, next, outputLen;
        }
        isCompressed, jump := true, jump + 1;
        continue;
      }
      jump := 0;
      var ok;
      ok, ptr, outputLen := AppendLabel(packet, ptr, output, outputLen, size);
      if !ok {
        return -1, next, outputLen;
      }
      out := output[..if outputLen < size then outputLen else 0];
    }
    assert output[..outputLen] == out;
    CursorAdvances(packet, start, [], size, 0);
    if !isCompressed {
      next := ptr;
    }
    ret := 0;
  }

  // ---- Section 4.1.4 of RFC 1035, read independently of the loop ----

  /** One way through a message from position p: labels, pointers, and the root label at the end. */
  datatype Walk =
    | Root(p: nat)
    | Label(p: nat, rest: Walk)
    | Pointer(p: nat, rest: Walk)

  /** Each step of w is what the bytes at its position say (lengths below 0xC0 are labels). */
  ghost predicate Follows(b: seq<byte>, w: Walk) {
    w.p < |b| &&
    match w
    case Root(p) => b[p] == 0
    case Label(p, rest) => 0 < b[p] < 0xC0 && p + 1 + b[p] <= |b| && rest.p == p + 1 + b[p] && Follows(b, rest)
    case Pointer(p, rest) => b[p] >= 0xC0 && p + 2 <= |b| && rest.p == Target(b, p) && Follows(b, rest)
  }

  /** No more than MAX_JUMPS pointers in a row, `run` of them already taken. */
  ghost predicate ShortRuns(w: Walk, run: nat) {
    run <= MAX_JUMPS &&
    match w
    case Root(_) => true
    case Label(_, rest) => ShortRuns(rest, 0)
    case Pointer(_, rest) => ShortRuns(rest, run + 1)
  }

  /** The labels of w joined by dots, after `out`. */
  ghost function Joined(b: seq<byte>, w: Walk, out: Text): Text
    requires Follows(b, w)
    decreases w
  {
    match w
    case Root(_) => out
    case Label(p, rest) => Joined(b, rest, Grown(b, p, out))
    case Pointer(_, rest) => Joined(b, rest, out)
  }

  lemma {:induction false} JoinedGrows(b: seq<byte>, w: Walk, out: Text)
    requires Follows(b, w)
    ensures |out| <= |Joined(b, w, out)|
    decreases w
  {
    match w
    case Root(_) =>
    case Label(p, rest) => JoinedGrows(b, rest, Grown(b, p, out));
    case Pointer(_, rest) => JoinedGrows(b, rest, out);
  }

  lemma {:induction false} ExpandHasWalk(b: seq<byte>, p: nat, out: Text, size: int, jump: nat) returns (w: Walk)
    requires Expand(b, p, out, size, jump).Some?
    ensures w.p == p && Follows(b, w) && ShortRuns(w, jump)
    ensures Expand(b, p, out, size, jump) == Some(Joined(b, w, out)) && |Joined(b, w, out)| < size - 1
    decreases size - |out|, MAX_JUMPS + 1 - jump
  {
    if b[p] == 0 {
      w := Root(p);
    } else if b[p] >= 0xC0 {
      var rest := ExpandHasWalk(b, Target(b, p), out, size, jump + 1);
      w := Pointer(p, rest);
      assert Follows(b, w) && Joined(b, w, out) == Joined(b, rest, out);
    } else {
      var rest := ExpandHasWalk(b, p + 1 + b[p], Grown(b, p, out), size, 0);
      w := Label(p, rest);
      assert Follows(b, w) && Joined(b, w, out) == Joined(b, rest, Grown(b, p, out));
    }
  }

  lemma {:induction false} WalkExpands(b: seq<byte>, w: Walk, out: Text, size: int, jump: nat)
    requires Follows(b, w) && ShortRuns(w, jump) && |Joined(b, w, out)| < size - 1
    ensures Expand(b, w.p, out, size, jump) == Some(Joined(b, w, out))
    decreases w
  {
    JoinedGrows(b, w, out);
    match w
    case Root(_) =>
    case Label(p, rest) =>
      JoinedGrows(b, rest, Grown(b, p, out));
      WalkExpands(b, rest, Grown(b, p, out), size, 0);
    case Pointer(_, rest) =>
      WalkExpands(b, rest, out, size, jump + 1);
  }

  /**
   * On arbitrary bytes the decoder accepts exactly the walks of section 4.1.4 of RFC 1035 whose pointer
   * runs and whose joined text fit, and its output is that text.
   */
  lemma DecoderMeetsRfc(b: seq<byte>, p: nat, size: nat, text: Text)
    ensures Expand(b, p, [], size, 0) == Some(text)
            <==> exists w: Walk :: w.p == p && Follows(b, w) && ShortRuns(w, 0)
                             && Joined(b, w, []) == text && |text| < size - 1
  {
    if Expand(b, p, [], size, 0) == Some(text) {
      var w := ExpandHasWalk(b, p, [], size, 0);
    }
    forall w: Walk | w.p == p && Follows(b, w) && ShortRuns(w, 0) && Joined(b, w, []) == text && |text| < size - 1
      ensures Expand(b, p, [], size, 0) == Some(text)
    {
      WalkExpands(b, w, [], size, 0);
    }
  }

  /** A successful decode moves the caller's cursor forward, and not past the packet. */
  lemma {:induction false} CursorAdvances(b: seq<byte>, p: nat, out: Text, size: int, jump: nat)
    requires Expand(b, p, out, size, jump).Some?
    ensures p < Cursor(b, p) <= |b|
    decreases size - |out|
  {
    if 0 < b[p] < 0xC0 {
      CursorAdvances(b, p + 1 + b[p], Grown(b, p, out), size, 0);
    }
  }
}
