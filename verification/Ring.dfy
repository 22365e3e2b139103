/**
 * The log ring buffer (src/tlog.c): producers append lines, one consumer takes a snapshot under
 * the lock, writes it out without the lock, and frees it under the lock again.
 *
 * Ring is the shared state together with the consumer's locals. Each function is one step; an
 * Event list is an interleaving. `accepted` and `output` record what producers stored and what
 * the consumer has written. Lines are at most maxLine bytes, cut ones being exactly that long.
 */
module Ring {
  import opened Bytes

  /** The consumer's locals in _tlog_work: idle, snapshot taken, or snapshot written out. */
  datatype Consumer =
    | Idle
    | Taken(len: nat, extLen: nat, end: nat, extend: nat)
    | Written(len: nat, extLen: nat, end: nat, extend: nat)

  datatype Ring = Ring(
    maxLine: nat, buff: seq<byte>, start: nat, end: nat, extEnd: nat, dropped: nat,
    consumer: Consumer, accepted: seq<byte>, output: seq<byte>)

  datatype Event = AppendLine(line: seq<byte>) | TakeSnapshot | WriteOut | FreeSpace

  /** Bytes a producer may use at `end`, as _tlog_need_drop and _tlog_vprintf compute it. */
  function MaxLen(r: Ring): int {
    if r.end == r.start then (if r.extEnd == 0 then |r.buff| - r.end else 0)
    else if r.end > r.start then |r.buff| - r.end
    else r.start - r.end
  }

  /** A producer's critical section, src/tlog.c:629-694, without blocking. */
  function Append(r: Ring, line: seq<byte>): Ring
    requires Fits(r, line)
  {
    if MaxLen(r) < r.maxLine then r.(dropped := r.dropped + 1)
    else
      var end := r.end + |line|;
      var stored := r.(buff := Write(r.buff, r.end, line), accepted := r.accepted + line);
      if end > |r.buff| - r.maxLine then stored.(extEnd := end, end := 0) else stored.(end := end)
  }

  /** src/tlog.c:1757-1782; without data the consumer waits. */
  function Snapshot(r: Ring): Ring {
    if r.end == r.start && r.extEnd == 0 then r
    else
      var len := if r.end > r.start then r.end - r.start else if r.extEnd > r.start then r.extEnd - r.start else 0;
      var extLen := if r.end < r.start then r.end else 0;
      r.(consumer := Taken(len, extLen, r.end, r.extEnd), dropped := 0)
  }

  /** _tlog_write_buff_log: reads the shared buffer without the lock. */
  function Output(r: Ring): Ring
    requires r.consumer.Taken? && Inside(r, r.consumer)
  {
    var c := r.consumer;
    r.(output := r.output + r.buff[r.start..r.start + c.len] + r.buff[..c.extLen],
       consumer := Written(c.len, c.extLen, c.end, c.extend))
  }

  /** src/tlog.c:1787-1793. */
  function Release(r: Ring): Ring
    requires r.consumer.Written?
  {
    var c := r.consumer;
    r.(start := c.end, extEnd := if c.extend > 0 then 0 else r.extEnd, consumer := Idle)
  }

  predicate Fits(r: Ring, line: seq<byte>) {
    0 < |line| <= r.maxLine && r.maxLine <= |r.buff| && r.end <= |r.buff| - r.maxLine
  }

  predicate Inside(r: Ring, c: Consumer) {
    !c.Idle? && r.start + c.len <= |r.buff| && c.extLen <= |r.buff|
  }

  // ---- Invariant ----

  /** The bytes stored and not yet freed, oldest first. */
  function Held(r: Ring): seq<byte>
    requires Shape(r)
  {
    if r.extEnd > 0 then r.buff[r.start..r.extEnd] + r.buff[..r.end] else r.buff[r.start..r.end]
  }

  predicate Shape(r: Ring) {
    && 0 < r.maxLine <= |r.buff| && r.start <= |r.buff| - r.maxLine && r.end <= |r.buff| - r.maxLine
    && if r.extEnd > 0 then r.end <= r.start < r.extEnd <= |r.buff| else r.start <= r.end
  }

  /** The snapshot is a prefix of what is held, however far producers have got since. */
  predicate Covered(r: Ring) {
    var c := r.consumer;
    !c.Idle? ==>
      && Inside(r, c) && c.end <= |r.buff| - r.maxLine
      && if c.extend > 0 then r.extEnd == c.extend == r.start + c.len && c.end == c.extLen <= r.end
         else c.extLen == 0 && c.end == r.start + c.len && 0 < c.len
              && if r.extEnd > 0 then c.end < r.extEnd else c.end <= r.end
  }

  /** What is still owed to the output. */
  function Owed(r: Ring): seq<byte>
    requires Shape(r) && Covered(r)
  {
    if r.consumer.Written? then Held(r)[r.consumer.len + r.consumer.extLen..] else Held(r)
  }

  predicate Fifo(r: Ring) {
    Shape(r) && Covered(r) && r.accepted == r.output + Owed(r)
  }

  /** Full because a line ended exactly where the unread data starts. */
  predicate ExactlyFull(r: Ring) {
    r.end == r.start && r.end > 0 && r.extEnd > 0
  }

  /** The bytes under an outstanding snapshot. */
  function Snapped(r: Ring): seq<byte>
    requires Inside(r, r.consumer)
  {
    r.buff[r.start..r.start + r.consumer.len] + r.buff[..r.consumer.extLen]
  }

  /** No append touches the bytes of an outstanding snapshot, and it stays a prefix of what is held. */
  lemma AppendSparesSnapshot(r: Ring, line: seq<byte>)
    requires Shape(r) && Covered(r) && Fits(r, line) && !r.consumer.Idle?
    ensures Covered(Append(r, line)) && Snapped(Append(r, line)) == Snapped(r)
  {
    var r', c := Append(r, line), r.consumer;
    hide Write;
    if MaxLen(r) >= r.maxLine {
      WriteSpares(r.buff, r.end, line, 0, c.extLen);
      WriteSpares(r.buff, r.end, line, r.start, r.start + c.len);
    }
  }

  lemma SnappedIsPrefix(r: Ring)
    requires Shape(r) && Covered(r) && !r.consumer.Idle?
    ensures |Snapped(r)| == r.consumer.len + r.consumer.extLen && Snapped(r) <= Held(r)
  {
    var c := r.consumer;
    if c.extend > 0 {
      SliceSplit(r.buff, 0, c.extLen, r.end);
    } else {
      assert r.buff[..0] == [];
      SliceSplit(r.buff, r.start, c.end, if r.extEnd > 0 then r.extEnd else r.end);
    }
  }

  lemma AppendKeeps(r: Ring, line: seq<byte>)
    requires Fifo(r) && Fits(r, line)
    ensures Fifo(Append(r, line))
    ensures Append(r, line).accepted == r.accepted + if MaxLen(r) < r.maxLine then [] else line
  {
    if MaxLen(r) >= r.maxLine {
      AppendHolds(r, line);
      if !r.consumer.Idle? {
        AppendSparesSnapshot(r, line);
        SnappedIsPrefix(r);
      }
      OwedGrows(r, Append(r, line), line);
    }
  }

  lemma OwedGrows(r: Ring, r': Ring, line: seq<byte>)
    requires Shape(r) && Covered(r) && Shape(r') && Covered(r') && r'.consumer == r.consumer
    requires Held(r') == Held(r) + line && r.accepted == r.output + Owed(r)
    requires !r.consumer.Idle? ==> r.consumer.len + r.consumer.extLen <= |Held(r)|
    ensures r.accepted + line == r.output + Owed(r')
  {
    hide Held, Shape, Covered;
    assert Owed(r') == Owed(r) + line;
  }

  lemma AppendHolds(r: Ring, line: seq<byte>)
    requires Shape(r) && Fits(r, line) && MaxLen(r) >= r.maxLine
    ensures Shape(Append(r, line)) && Held(Append(r, line)) == Held(r) + line
  {
    var r' := Append(r, line);
    assert r'.buff[r.end..r.end + |line|] == line;
    if r.extEnd > 0 {
      assert r'.buff[r.start..r.extEnd] == r.buff[r.start..r.extEnd];
      assert r'.buff[..r.end + |line|] == r.buff[..r.end] + line;
    } else {
      assert r'.buff[r.start..r.end + |line|] == r.buff[r.start..r.end] + line;
    }
  }

  /** A snapshot covers everything held, except in an exactly full ring. */
  lemma SnapshotKeeps(r: Ring)
    requires Fifo(r) && r.consumer.Idle?
    ensures Fifo(Snapshot(r)) <==> !ExactlyFull(r)
    ensures var c := Snapshot(r).consumer;
            !c.Idle? ==> (c.len + c.extLen == |Held(r)| <==> !ExactlyFull(r))
  {
  }

  lemma OutputKeeps(r: Ring)
    requires Fifo(r) && r.consumer.Taken?
    ensures Fifo(Output(r)) && Output(r).output == r.output + Snapped(r)
  {
    hide Held, Snapped, Output, Shape, Covered, Inside;
    CoveredInside(r);
    SnappedIsPrefix(r);
    OutputIs(r);
    OutputHolds(r);
    var n := r.consumer.len + r.consumer.extLen;
    assert Held(r)[..n] == Snapped(r);
    Regroup(r.accepted, r.output, Held(r), n);
  }

  lemma CoveredInside(r: Ring)
    requires Covered(r) && !r.consumer.Idle?
    ensures Inside(r, r.consumer)
  {
  }

  lemma OutputIs(r: Ring)
    requires r.consumer.Taken? && Inside(r, r.consumer)
    ensures Output(r).output == r.output + Snapped(r)
  {
  }

  lemma OutputHolds(r: Ring)
    requires Shape(r) && Covered(r) && r.consumer.Taken?
    ensures Shape(Output(r)) && Covered(Output(r)) && Held(Output(r)) == Held(r)
    ensures Owed(Output(r)) == Held(r)[r.consumer.len + r.consumer.extLen..] && Output(r).accepted == r.accepted
  {
  }

  lemma ReleaseKeeps(r: Ring)
    requires Fifo(r) && r.consumer.Written?
    ensures Fifo(Release(r)) && Held(Release(r)) == Held(r)[r.consumer.len + r.consumer.extLen..]
  {
    var c := r.consumer;
    var n := c.len + c.extLen;
    if c.extend > 0 {
      SliceSplit(r.buff, 0, c.extLen, r.end);
    } else {
      SliceSplit(r.buff, r.start, c.end, if r.extEnd > 0 then r.extEnd else r.end);
    }
    assert Held(Release(r)) == Held(r)[n..];
  }

  // ---- All interleavings ----

  predicate Enabled(r: Ring, e: Event) {
    match e
    case AppendLine(line) => Fits(r, line)
    case TakeSnapshot => r.consumer.Idle?
    case WriteOut => r.consumer.Taken? && Inside(r, r.consumer)
    case FreeSpace => r.consumer.Written?
  }

  function Step(r: Ring, e: Event): Ring
    requires Enabled(r, e)
  {
    match e
    case AppendLine(line) => Append(r, line)
    case TakeSnapshot => Snapshot(r)
    case WriteOut => Output(r)
    case FreeSpace => Release(r)
  }

  /** The interleaving is possible, and no snapshot is taken of an exactly full ring. */
  predicate Runs(r: Ring, es: seq<Event>)
    decreases |es|
  {
    es == [] || (Enabled(r, es[0]) && !(es[0].TakeSnapshot? && ExactlyFull(r)) && Runs(Step(r, es[0]), es[1..]))
  }

  function Run(r: Ring, es: seq<Event>): Ring
    requires Runs(r, es)
    decreases |es|
  {
    if es == [] then r else Run(Step(r, es[0]), es[1..])
  }

  /** What a run accepted: the lines that were not dropped, in order. */
  function Lines(r: Ring, es: seq<Event>): seq<byte>
    requires Runs(r, es)
    decreases |es|
  {
    if es == [] then []
    else
      (if es[0].AppendLine? && MaxLen(r) >= r.maxLine then es[0].line else []) + Lines(Step(r, es[0]), es[1..])
  }

  function Open(maxLine: nat, buff: seq<byte>): Ring {
    Ring(maxLine, buff, 0, 0, 0, 0, Idle, [], [])
  }

  lemma StepKeeps(r: Ring, e: Event)
    requires Fifo(r) && Enabled(r, e) && !(e.TakeSnapshot? && ExactlyFull(r))
    ensures Fifo(Step(r, e))
    ensures Step(r, e).accepted == r.accepted + if e.AppendLine? && MaxLen(r) >= r.maxLine then e.line else []
  {
    hide Fifo, Shape, Covered, Append;
    match e
    case AppendLine(line) => AppendKeeps(r, line);
    case TakeSnapshot => SnapshotKeeps(r);
    case WriteOut => OutputKeeps(r);
    case FreeSpace => ReleaseKeeps(r);
  }

  /**
   * FIFO under every interleaving: what has been written out, followed by what is still owed, is
   * exactly the accepted lines in order.
   */
  lemma {:induction false} RunIsFifo(r: Ring, es: seq<Event>)
    requires Fifo(r) && Runs(r, es)
    ensures Fifo(Run(r, es)) && Run(r, es).output + Owed(Run(r, es)) == r.accepted + Lines(r, es)
    decreases |es|
  {
    hide Shape, Covered, Held, Step, Enabled, MaxLen;
    if es != [] {
      StepKeeps(r, es[0]);
      RunIsFifo(Step(r, es[0]), es[1..]);
    }
  }

  /** Lines shorter than maxLine never fill a ring exactly, so no interleaving of them loses a byte. */
  predicate ShortLines(r: Ring, es: seq<Event>) {
    forall i :: 0 <= i < |es| && es[i].AppendLine? ==> |es[i].line| < r.maxLine
  }

  predicate Possible(r: Ring, es: seq<Event>)
    decreases |es|
  {
    es == [] || (Enabled(r, es[0]) && Possible(Step(r, es[0]), es[1..]))
  }

  lemma {:induction false} ShortLinesRun(r: Ring, es: seq<Event>)
    requires Fifo(r) && !ExactlyFull(r) && Possible(r, es) && ShortLines(r, es)
    ensures Runs(r, es)
    decreases |es|
  {
    if es != [] {
      StepKeeps(r, es[0]);
      assert es[0].AppendLine? ==> |es[0].line| < r.maxLine;
      NeverExactlyFull(r, es[0]);
      assert ShortLines(Step(r, es[0]), es[1..]);
      ShortLinesRun(Step(r, es[0]), es[1..]);
    }
  }

  lemma NeverExactlyFull(r: Ring, e: Event)
    requires Fifo(r) && !ExactlyFull(r) && Enabled(r, e) && (e.AppendLine? ==> |e.line| < r.maxLine)
    ensures !ExactlyFull(Step(r, e))
  {
  }

  lemma FifoForShortLines(maxLine: nat, buff: seq<byte>, es: seq<Event>)
    requires 0 < maxLine <= |buff| && Possible(Open(maxLine, buff), es) && ShortLines(Open(maxLine, buff), es)
    ensures Runs(Open(maxLine, buff), es)
    ensures var r := Run(Open(maxLine, buff), es); Fifo(r) && r.output + Owed(r) == Lines(Open(maxLine, buff), es)
  {
    ShortLinesRun(Open(maxLine, buff), es);
    RunIsFifo(Open(maxLine, buff), es);
  }

  /** In an exactly full ring a snapshot, write and release lose the `end` newest bytes, whatever they are. */
  lemma ExactlyFullLoses(r: Ring)
    requires Fifo(r) && r.consumer.Idle? && ExactlyFull(r)
    ensures var taken := Snapshot(r);
            && taken.consumer.Taken? && Inside(taken, taken.consumer)
            && var done := Release(Output(taken));
               && done.output == r.output + Held(r)[..|Held(r)| - r.end]
               && Shape(done) && Held(done) == [] && done.accepted == r.accepted
  {
    var taken := Snapshot(r);
    assert taken.buff[..0] == [];
    assert Held(r)[..|Held(r)| - r.end] == r.buff[r.start..r.extEnd];
  }

  /**
   * The lossy state is within reach of an open ring, with lines cut to the maximal size, if and only if
   * two such lines fit into the buffer; the default sizes are 1024 and 128 * 1024.
   */
  lemma ExactlyFullReachable(maxLine: nat, buff: seq<byte>)
    requires 0 < maxLine <= |buff|
    ensures (exists es :: Runs(Open(maxLine, buff), es) && ExactlyFull(Run(Open(maxLine, buff), es))) <==> 2 * maxLine <= |buff|
  {
    hide Runs, Run, ExactlyFull;
    var r := Open(maxLine, buff);
    if 2 * maxLine <= |buff| {
      var es := FillExactly(maxLine, buff);
    } else {
      forall es | Runs(r, es) ensures !ExactlyFull(Run(r, es)) {
        OpenRoomy(maxLine, buff);
        RunRoomy(r, es);
      }
    }
  }

  /** An exactly full ring holds a whole maximal line before its start. */
  predicate Roomy(r: Ring) {
    Fifo(r) && (ExactlyFull(r) ==> r.maxLine <= r.start)
  }

  lemma OpenRoomy(maxLine: nat, buff: seq<byte>)
    requires 0 < maxLine <= |buff|
    ensures Roomy(Open(maxLine, buff))
  {
  }

  lemma StepRoomy(r: Ring, e: Event)
    requires Roomy(r) && Enabled(r, e) && !(e.TakeSnapshot? && ExactlyFull(r))
    ensures Roomy(Step(r, e)) && Step(r, e).maxLine == r.maxLine && |Step(r, e).buff| == |r.buff|
  {
    StepKeeps(r, e);
    hide Fifo, Held, Owed;
    assert Shape(r) && Covered(r) by { FifoShape(r); }
  }

  lemma FifoShape(r: Ring)
    requires Fifo(r)
    ensures Shape(r) && Covered(r)
  {
  }

  lemma {:induction false} RunRoomy(r: Ring, es: seq<Event>)
    requires Roomy(r) && Runs(r, es)
    ensures ExactlyFull(Run(r, es)) ==> 2 * r.maxLine <= |r.buff|
    decreases |es|
  {
    hide Step, Enabled, Held, Owed, Covered;
    if es != [] {
      StepRoomy(r, es[0]);
      RunRoomy(Step(r, es[0]), es[1..]);
    }
  }

  /** One line has been written out and freed, and the lines after it have not wrapped. */
  predicate Behind(r: Ring) {
    && r.consumer.Idle? && r.extEnd == 0 && 0 < r.maxLine == r.start <= r.end <= |r.buff| - r.maxLine
  }

  /** Lines of the maximal size until the ring wraps, and one more. */
  lemma {:induction false} Fill(r: Ring, line: seq<byte>) returns (es: seq<Event>)
    requires Behind(r) && |line| == r.maxLine
    ensures Runs(r, es) && ExactlyFull(Run(r, es))
    decreases |r.buff| - r.end
  {
    hide Runs, Run, Write;
    var e := AppendLine(line);
    var n := Step(r, e);
    if r.end + r.maxLine <= |r.buff| - r.maxLine {
      es := Fill(n, line);
    } else {
      RunsNot(Step(n, e));
      es := [e] + [];
      Cons(n, e, []);
    }
    Cons(r, e, es);
    es := [e] + es;
  }

  lemma FillExactly(maxLine: nat, buff: seq<byte>) returns (es: seq<Event>)
    requires 0 < maxLine && 2 * maxLine <= |buff|
    ensures Runs(Open(maxLine, buff), es) && ExactlyFull(Run(Open(maxLine, buff), es))
  {
    hide Runs, Run, Write;
    var line: seq<byte> := seq(maxLine, i => 7);
    var r0 := Open(maxLine, buff);
    var r1 := Step(r0, AppendLine(line));
    var r2 := Step(r1, TakeSnapshot);
    var r3 := Step(r2, WriteOut);
    var r4 := Step(r3, FreeSpace);
    es := Fill(r4, line);
    Cons(r3, FreeSpace, es);
    Cons(r2, WriteOut, [FreeSpace] + es);
    Cons(r1, TakeSnapshot, [WriteOut] + ([FreeSpace] + es));
    es := [TakeSnapshot] + ([WriteOut] + ([FreeSpace] + es));
    Cons(r0, AppendLine(line), es);
    es := [AppendLine(line)] + es;
  }

  lemma RunsNot(r: Ring)
    ensures Runs(r, []) && Run(r, []) == r
  {
  }

  lemma Cons(r: Ring, e: Event, es: seq<Event>)
    requires Enabled(r, e) && !(e.TakeSnapshot? && ExactlyFull(r)) && Runs(Step(r, e), es)
    ensures Runs(r, [e] + es) && Run(r, [e] + es) == Run(Step(r, e), es)
  {
    assert ([e] + es)[1..] == es;
  }

  /** A run goes on from the state its first i events lead to, and keeps the ring sound. */
  lemma {:induction false} RunsOn(r: Ring, es: seq<Event>, i: nat)
    requires Fifo(r) && Runs(r, es) && i < |es|
    ensures Runs(r, es[..i]) && Runs(r, es[..i + 1]) && Enabled(Run(r, es[..i]), es[i]) && Shape(Run(r, es[..i]))
    ensures Run(r, es[..i + 1]) == Step(Run(r, es[..i]), es[i])
    decreases i
  {
    hide Step, Enabled, Fifo, Shape;
    if i == 0 {
      assert es[..0] == [] && es[..1] == [es[0]] && [es[0]] + [] == [es[0]];
      FifoShape(r);
      RunsNot(r);
      RunsNot(Step(r, es[0]));
      Cons(r, es[0], []);
    } else {
      StepKeeps(r, es[0]);
      RunsOn(Step(r, es[0]), es[1..], i - 1);
      assert [es[0]] + es[1..][..i - 1] == es[..i] && [es[0]] + es[1..][..i] == es[..i + 1];
      Cons(r, es[0], es[1..][..i - 1]);
      Cons(r, es[0], es[1..][..i]);
    }
  }

  // ---- The shared object ----

  class Log {
    const maxLine: nat
    const buff: array<byte>
    var start: nat
    var end: nat
    var extEnd: nat
    var dropped: nat
    var consumer: Consumer
    ghost var accepted: seq<byte>
    ghost var output: seq<byte>

    ghost function State(): Ring
      reads this, buff
    {
      Ring(maxLine, buff[..], start, end, extEnd, dropped, consumer, accepted, output)
    }

    constructor (maxLine: nat, buff: array<byte>)
      ensures this.buff == buff && State() == Open(maxLine, buff[..])
    {
      this.maxLine, this.buff, start, end, extEnd, dropped := maxLine, buff, 0, 0, 0, 0;
      consumer, accepted, output := Idle, [], [];
    }

    /** The non-blocking path of _tlog_vprintf. */
    method Vprintf(line: array<byte>, len: nat) returns (ret: int)
      requires len <= line.Length && line != buff && Fits(State(), line[..len]) && Shape(State())
      modifies this, buff
      ensures State() == Append(old(State()), line[..len])
      ensures ret == if MaxLen(old(State())) < maxLine then -1 else len
    {
      var maxLen := 0;
      if end == start {
        if extEnd == 0 {
          maxLen := buff.Length - end;
        }
      } else if end > start {
        maxLen := buff.Length - end;
      } else {
        maxLen := start - end;
      }
      if maxLen < maxLine {
        dropped := dropped + 1;
        return -1;
      }
      forall i | 0 <= i < len {
        buff[end + i] := line[i];
      }
      assert buff[..] == Write(old(buff[..]), end, line[..len]);
      accepted := accepted + line[..len];
      end := end + len;
      if end > buff.Length - maxLine {
        extEnd := end;
        end := 0;
      }
      return len;
    }

    method Take()
      requires Shape(State())
      modifies this
      ensures State() == Snapshot(old(State()))
    {
      if end == start && extEnd == 0 {
        return;
      }
      var len, extLen, extend := 0, 0, 0;
      if extEnd > 0 {
        len := extEnd - start;
        extend := extEnd;
      }
      if end < start {
        extLen := end;
      } else if end > start {
        len := end - start;
      }
      consumer := Taken(len, extLen, end, extend);
      dropped := 0;
    }

    /** _tlog_write_buff_log; text is what the output function is given. */
    method WriteBuff() returns (text: seq<byte>)
      requires consumer.Taken? && Inside(State(), consumer)
      modifies this
      ensures State() == Output(old(State())) && text == Snapped(old(State()))
    {
      text := buff[start..start + consumer.len];
      if consumer.extLen > 0 {
        text := text + buff[..consumer.extLen];
      }
      output := output + buff[start..start + consumer.len] + buff[..consumer.extLen];
      consumer := Written(consumer.len, consumer.extLen, consumer.end, consumer.extend);
    }

    method Free()
      requires consumer.Written?
      modifies this
      ensures State() == Release(old(State()))
    {
      start := consumer.end;
      if consumer.extend > 0 {
        extEnd := 0;
      }
      consumer := Idle;
    }

    /** One step of a producer or of the consumer. */
    method Do(e: Event)
      requires Shape(State()) && Enabled(State(), e)
      modifies this, buff
      ensures State() == Step(old(State()), e)
    {
      match e {
        case AppendLine(line) =>
          var text := new byte[|line|](i requires 0 <= i < |line| => line[i]);
          assert text[..|line|] == line;
          var ret := Vprintf(text, |line|);
        case TakeSnapshot => Take();
        case WriteOut => var text := WriteBuff();
        case FreeSpace => Free();
      }
    }

    /** Any interleaving on the object: what was written out, and what is still owed, are the accepted lines in order. */
    method Interleave(es: seq<Event>)
      requires Fifo(State()) && Runs(State(), es)
      modifies this, buff
      ensures Runs(old(State()), es) && State() == Run(old(State()), es) && Fifo(State())
      ensures output + Owed(State()) == old(accepted) + Lines(old(State()), es)
    {
      hide Shape, Covered, Held, Step, Enabled, Runs, Run, Lines, Fifo, Owed;
      ghost var r := State();
      RunIsFifo(r, es);
      RunsNot(r);
      assert es[..0] == [];
      for i := 0 to |es|
        invariant Runs(r, es[..i]) && State() == Run(r, es[..i])
      {
        RunsOn(r, es, i);
        Do(es[i]);
      }
      assert es[..|es|] == es;
    }
  }
}
