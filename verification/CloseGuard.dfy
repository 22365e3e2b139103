/**
 * Closing a connection that is in use (src/dns_client/client_socket.c). The poll loops hold a guard;
 * a close asked for meanwhile is deferred to the outermost leave. Threads are interleaved at their
 * critical sections, and the lemmas hold for every interleaving.
 */
module CloseGuard {
  import opened Bytes

  type Thread = nat

  /** The fields of dns_server_info that a close touches; list holds the streams of conn_stream_list. */
  datatype Conn = Conn(depth: int, deferred: bool, ssl: bool, ctx: Option<nat>, list: set<nat>, https: bool, quic: bool)

  datatype Outcome = Deferred | Again | Closed

  // ---- The critical sections ----

  function Entered(c: Conn): Conn {
    c.(depth := c.depth + 1)
  }

  /** _dns_client_process_guard_leave; true asks the leaving thread to close. */
  function Left(c: Conn): (Conn, bool) {
    var d := if c.depth > 0 then c.depth - 1 else c.depth;
    if d == 0 && c.deferred then (c.(depth := d, deferred := false), true) else (c.(depth := d), false)
  }

  /** The first section of _dns_client_close_socket_ext; true lets the close go on. */
  function Asked(c: Conn): (Conn, bool) {
    if c.depth > 0 then (c.(deferred := true), false) else (c, true)
  }

  function TornDown(c: Conn, keepList: bool): Conn {
    c.(ssl := false, ctx := None, list := if c.ssl && (c.https || c.quic) && !keepList then {} else c.list)
  }

  /** The last section: deferred after all, or started over when another context appeared, or done. */
  function Finished(c: Conn, closed: Option<nat>, keepList: bool): (Conn, Outcome) {
    if c.depth > 0 then (c.(deferred := true), Deferred)
    else if c.ctx.Some? && c.ctx != closed then (c, Again)
    else (TornDown(c, keepList), Closed)
  }

  // ---- Interleavings ----

  /** Where a thread is in _dns_client_close_socket_ext. */
  datatype Pc = Outside | Asking(keepList: bool) | Gathering(keepList: bool) | Finishing(keepList: bool, closed: Option<nat>)

  /**
   * held counts the guards each thread is in; requests the closes deferred since the connection was
   * last unguarded; periods those of each earlier guarded time; attempts the closes made by a leave.
   */
  datatype Sys = Sys(conn: Conn, pcs: map<Thread, Pc>, held: multiset<Thread>, requests: nat, periods: seq<nat>, attempts: nat)

  datatype Step =
    | Enter(t: Thread) | Leave(t: Thread) | Call(t: Thread, keepList: bool) | Ask(t: Thread) | Gather(t: Thread) | Finish(t: Thread)
    | ConnectSsl | ConnectCtx(id: nat) | AddStream(id: nat)

  predicate Enabled(s: Sys, a: Step) {
    match a
    case Enter(t) => t in s.pcs && s.pcs[t] == Outside
    case Leave(t) => t in s.pcs && s.pcs[t] == Outside && t in s.held
    case Call(t, _) => t in s.pcs && s.pcs[t] == Outside
    case Ask(t) => t in s.pcs && s.pcs[t].Asking?
    case Gather(t) => t in s.pcs && s.pcs[t].Gathering?
    case Finish(t) => t in s.pcs && s.pcs[t].Finishing?
    case ConnectSsl => !s.conn.ssl
    case ConnectCtx(_) => s.conn.https && s.conn.ctx.None?
    case AddStream(_) => true
  }

  function At(s: Sys, t: Thread, pc: Pc): Sys {
    s.(pcs := s.pcs[t := pc])
  }

  /** Past the first section: HTTPS gathers the context and its streams, other types go straight on. */
  function Onward(s: Sys, t: Thread, keepList: bool): Sys {
    At(s, t, if s.conn.https then Gathering(keepList) else Finishing(keepList, None))
  }

  function Next(s: Sys, a: Step): Sys
    requires Enabled(s, a)
  {
    match a
    case Enter(t) => s.(conn := Entered(s.conn), held := s.held + multiset{t})
    case Leave(t) =>
      var (c, close) := Left(s.conn);
      var s1 := s.(conn := c, held := s.held - multiset{t});
      var s2 := if c.depth == 0 then s1.(requests := 0, periods := s.periods + [s.requests]) else s1;
      if close then At(s2, t, Asking(false)).(attempts := s.attempts + 1) else s2
    case Call(t, keepList) => At(s, t, Asking(keepList))
    case Ask(t) =>
      var (c, go) := Asked(s.conn);
      if go then Onward(s.(conn := c), t, s.pcs[t].keepList) else At(s.(conn := c, requests := s.requests + 1), t, Outside)
    case Gather(t) => At(s, t, Finishing(s.pcs[t].keepList, s.conn.ctx))
    case Finish(t) =>
      var (c, outcome) := Finished(s.conn, s.pcs[t].closed, s.pcs[t].keepList);
      (match outcome
       case Deferred => At(s.(conn := c, requests := s.requests + 1), t, Outside)
       case Again => Onward(s.(conn := c), t, s.pcs[t].keepList)
       case Closed => At(s.(conn := c), t, Outside))
    case ConnectSsl => s.(conn := s.conn.(ssl := true))
    case ConnectCtx(id) => s.(conn := s.conn.(ctx := Some(id)))
    case AddStream(id) => s.(conn := s.conn.(list := s.conn.list + {id}))
  }

  function Positive(periods: seq<nat>): nat {
    if periods == [] then 0 else Positive(periods[..|periods| - 1]) + (if periods[|periods| - 1] > 0 then 1 else 0)
  }

  /**
   * A deferred close means guarded, and that a close was asked for in this guarded time; a thread past
   * the first section of a close holds no guard itself; only HTTPS has a context.
   */
  ghost predicate Inv(s: Sys) {
    && s.conn.depth == |s.held| && (s.conn.deferred <==> s.requests > 0) && (s.conn.deferred ==> s.conn.depth > 0)
    && s.attempts == Positive(s.periods) && CloserUnguarded(s.pcs, s.held) && (s.conn.https || s.conn.ctx.None?)
  }

  ghost predicate CloserUnguarded(pcs: map<Thread, Pc>, held: multiset<Thread>) {
    forall t :: t in pcs && (pcs[t].Gathering? || pcs[t].Finishing?) ==> t !in held
  }

  /** ssl, http2_ctx or membership of the list is taken away. */
  predicate Torn(c: Conn, c': Conn) {
    (c.ssl && !c'.ssl) || (c.ctx.Some? && c'.ctx != c.ctx) || !(c.list <= c'.list)
  }

  lemma NextKeeps(s: Sys, a: Step)
    requires Inv(s) && Enabled(s, a)
    ensures Inv(Next(s, a)) && (Torn(s.conn, Next(s, a).conn) ==> s.conn.depth == 0)
  {
    hide Positive;
    match a
    case Leave(t) => LeaveKeeps(s, t);
    case Finish(t) => FinishKeeps(s, t);
    case Enter(t) => assert |s.held + multiset{t}| == |s.held| + 1;
    case Ask(t) => AskKeeps(s, t);
    case _ =>
  }

  lemma AskKeeps(s: Sys, t: Thread)
    requires Inv(s) && Enabled(s, Ask(t))
    ensures Inv(Next(s, Ask(t))) && !Torn(s.conn, Next(s, Ask(t)).conn)
  {
    hide Positive;
    if t in s.held {
      HeldGuards(s, t);
    }
  }

  lemma HeldGuards(s: Sys, t: Thread)
    requires Inv(s) && t in s.held
    ensures s.conn.depth > 0
  {
    assert multiset{t} <= s.held;
  }

  lemma LeaveKeeps(s: Sys, t: Thread)
    requires Inv(s) && Enabled(s, Leave(t))
    ensures Inv(Next(s, Leave(t))) && !Torn(s.conn, Next(s, Leave(t)).conn)
  {
    hide Positive;
    assert |s.held - multiset{t}| == |s.held| - 1;
    OneMore(s.periods, s.requests);
  }

  lemma OneMore(periods: seq<nat>, n: nat)
    ensures Positive(periods + [n]) == Positive(periods) + (if n > 0 then 1 else 0)
  {
    var p := periods + [n];
    assert p[..|p| - 1] == periods;
  }

  lemma FinishKeeps(s: Sys, t: Thread)
    requires Inv(s) && Enabled(s, Finish(t))
    ensures Inv(Next(s, Finish(t))) && (Torn(s.conn, Next(s, Finish(t)).conn) ==> s.conn.depth == 0)
  {
    hide Positive;
  }

  // ---- Runs ----

  ghost predicate Runs(s: Sys, steps: seq<Step>)
    decreases |steps|
  {
    steps == [] || (Enabled(s, steps[0]) && Runs(Next(s, steps[0]), steps[1..]))
  }

  ghost function Run(s: Sys, steps: seq<Step>): Sys
    requires Runs(s, steps)
    decreases |steps|
  {
    if steps == [] then s else Run(Next(s, steps[0]), steps[1..])
  }

  /** A connection no thread has touched yet. */
  predicate Start(s: Sys) {
    && s.conn.depth == 0 && !s.conn.deferred && s.held == multiset{} && s.requests == 0 && s.periods == [] && s.attempts == 0
    && (forall t :: t in s.pcs ==> s.pcs[t] == Outside) && (s.conn.https || s.conn.ctx.None?)
  }

  lemma StartInv(s: Sys)
    requires Start(s)
    ensures Inv(s)
  {
  }

  lemma {:induction false} RunKeeps(s: Sys, steps: seq<Step>)
    requires Inv(s) && Runs(s, steps)
    ensures Inv(Run(s, steps))
    decreases |steps|
  {
    hide Next, Inv;
    if steps != [] {
      NextKeeps(s, steps[0]);
      RunKeeps(Next(s, steps[0]), steps[1..]);
    }
  }

  /**
   * Deferred close, in every interleaving from the start: nothing is torn down while a guard is held;
   * a close is deferred only while one is held; a thread that is closing holds none; over all past
   * guarded times the leaves have made exactly one close attempt for each time in which a close was
   * asked for, however often, and none for the others; and the attempt, undisturbed, closes.
   */
  lemma DeferredClose(s: Sys, steps: seq<Step>, a: Step)
    requires Start(s) && Runs(s, steps)
    ensures var r := Run(s, steps);
            && (r.conn.deferred ==> r.conn.depth > 0) && r.conn.depth == |r.held| && r.attempts == Positive(r.periods)
            && CloserUnguarded(r.pcs, r.held)
            && (Enabled(r, a) && Torn(r.conn, Next(r, a).conn) ==> r.conn.depth == 0)
            && (Enabled(r, a) && a.Leave? && |r.held| == 1 ==>
                  var n := Next(r, a);
                  && n.periods == r.periods + [r.requests] && n.attempts == r.attempts + (if r.requests > 0 then 1 else 0)
                  && (r.requests > 0 ==> n.pcs[a.t] == Asking(false) && ClosesAlone(n, a.t)))
  {
    hide Next, Torn, Positive, Run, Runs, CloserUnguarded, ClosesAlone;
    StartInv(s);
    RunKeeps(s, steps);
    var r := Run(s, steps);
    if Enabled(r, a) {
      NextKeeps(r, a);
      if a.Leave? && |r.held| == 1 {
        LastLeave(r, a);
        if r.requests > 0 {
          Undisturbed(Next(r, a), a.t);
        }
      }
    }
  }

  lemma LastLeave(s: Sys, a: Step)
    requires Inv(s) && Enabled(s, a) && a.Leave? && |s.held| == 1
    ensures var n := Next(s, a);
            && n.periods == s.periods + [s.requests] && n.attempts == s.attempts + (if s.requests > 0 then 1 else 0)
            && n.conn.depth == 0 && a.t in n.pcs && (s.requests > 0 ==> n.pcs[a.t] == Asking(false))
  {
  }

  /** The sections of a close by t, when no other thread comes in between. */
  function Alone(s: Sys, t: Thread): seq<Step> {
    if s.conn.https then [Ask(t), Gather(t), Finish(t)] else [Ask(t), Finish(t)]
  }

  /** Undisturbed, the close of t runs to its end, and the connection is torn down. */
  ghost predicate ClosesAlone(s: Sys, t: Thread) {
    && t in s.pcs && Runs(s, Alone(s, t))
    && var r := Run(s, Alone(s, t));
       && t in r.pcs && r.pcs[t] == Outside && !r.conn.ssl && r.conn.ctx.None?
       && (s.conn.ssl && (s.conn.https || s.conn.quic) && s.pcs[t] == Asking(false) ==> r.conn.list == {})
  }

  lemma Undisturbed(s: Sys, t: Thread)
    requires Inv(s) && s.conn.depth == 0 && t in s.pcs && s.pcs[t].Asking?
    ensures ClosesAlone(s, t)
  {
    hide Runs, Run, Inv;
    OnlyHttps(s);
    var keep := s.pcs[t].keepList;
    var s1 := Next(s, Ask(t));
    if s.conn.https {
      var s2 := Next(s1, Gather(t));
      assert s2 == At(s1, t, Finishing(keep, s.conn.ctx));
      var s3 := Next(s2, Finish(t));
      NoMore(s3);
      assert [Finish(t)] + [] == [Finish(t)] && [Gather(t)] + [Finish(t)] == [Gather(t), Finish(t)];
      assert [Ask(t)] + [Gather(t), Finish(t)] == Alone(s, t);
      Cons(s2, Finish(t), []);
      Cons(s1, Gather(t), [Finish(t)]);
      Cons(s, Ask(t), [Gather(t), Finish(t)]);
    } else {
      var s2 := Next(s1, Finish(t));
      NoMore(s2);
      assert [Finish(t)] + [] == [Finish(t)] && [Ask(t)] + [Finish(t)] == Alone(s, t);
      Cons(s1, Finish(t), []);
      Cons(s, Ask(t), [Finish(t)]);
    }
  }

  lemma OnlyHttps(s: Sys)
    requires Inv(s)
    ensures s.conn.https || s.conn.ctx.None?
  {
  }

  lemma NoMore(s: Sys)
    ensures Runs(s, []) && Run(s, []) == s
  {
  }

  lemma Cons(s: Sys, a: Step, steps: seq<Step>)
    requires Enabled(s, a) && Runs(Next(s, a), steps)
    ensures Runs(s, [a] + steps) && Run(s, [a] + steps) == Run(Next(s, a), steps)
  {
    hide Next, Enabled;
    assert ([a] + steps)[1..] == steps;
  }

  lemma {:induction false} RunsOn(s: Sys, steps: seq<Step>, i: nat)
    requires Runs(s, steps) && i < |steps|
    ensures Runs(s, steps[..i]) && Runs(s, steps[..i + 1]) && Enabled(Run(s, steps[..i]), steps[i])
    ensures Run(s, steps[..i + 1]) == Next(Run(s, steps[..i]), steps[i])
    decreases i
  {
    hide Next, Enabled;
    if i == 0 {
      assert steps[..0] == [] && steps[..1] == [steps[0]];
      NoMore(s);
      NoMore(Next(s, steps[0]));
      assert [steps[0]] + [] == [steps[0]];
      Cons(s, steps[0], []);
    } else {
      var n := Next(s, steps[0]);
      RunsOn(n, steps[1..], i - 1);
      assert [steps[0]] + steps[1..][..i - 1] == steps[..i] && [steps[0]] + steps[1..][..i] == steps[..i + 1];
      Cons(s, steps[0], steps[1..][..i - 1]);
      Cons(s, steps[0], steps[1..][..i]);
    }
  }

  // ---- The object ----

  /** pcs holds the locals of the threads in a close; the ghost fields are the history of Sys. */
  class ServerInfo {
    var depth: int
    var deferred: bool
    var ssl: bool
    var ctx: Option<nat>
    var list: set<nat>
    const https: bool
    const quic: bool
    var pcs: map<Thread, Pc>
    ghost var held: multiset<Thread>
    ghost var requests: nat
    ghost var periods: seq<nat>
    ghost var attempts: nat

    function C(): Conn
      reads this
    {
      Conn(depth, deferred, ssl, ctx, list, https, quic)
    }

    ghost function S(): Sys
      reads this
    {
      Sys(C(), pcs, held, requests, periods, attempts)
    }

    /** _dns_client_process_guard_enter. */
    method GuardEnter(t: Thread)
      requires Inv(S()) && t in pcs && pcs[t] == Outside
      modifies `depth, `held
      ensures S() == Next(old(S()), Enter(t)) && Inv(S()) && t in held && depth == |held| > 0
    {
      NextKeeps(S(), Enter(t));
      depth := depth + 1;
      held := held + multiset{t};
      HeldGuards(S(), t);
    }

    /** _dns_client_process_guard_leave: exactly the outermost leave closes, if a close was asked for meanwhile. */
    method GuardLeave(t: Thread) returns (needClose: bool)
      requires Inv(S()) && t in pcs && pcs[t] == Outside && t in held
      modifies `depth, `deferred, `held, `requests, `periods, `attempts, `pcs
      ensures S() == Next(old(S()), Leave(t)) && Inv(S())
      ensures needClose <==> |old(held)| == 1 && old(requests) > 0
      ensures |old(held)| == 1 ==> !deferred && periods == old(periods) + [old(requests)]
    {
      hide Inv, Next;
      ghost var n := Next(S(), Leave(t));
      NextKeeps(S(), Leave(t));
      Leaving(S(), t);
      needClose := Drop();
      if needClose {
        pcs := pcs[t := Asking(false)];
      }
      held, requests, periods, attempts := n.held, n.requests, n.periods, n.attempts;
    }

    /** The section of a leave, on the fields it touches. */
    method Drop() returns (needClose: bool)
      modifies `depth, `deferred
      ensures (C(), needClose) == Left(old(C()))
    {
      needClose := false;
      if depth > 0 {
        depth := depth - 1;
      }
      if depth == 0 && deferred {
        deferred := false;
        needClose := true;
      }
    }

    /** The first section of a close: it goes on exactly if nobody holds a guard, and nothing is torn down. */
    method AskClose(t: Thread) returns (go: bool)
      requires Inv(S()) && t in pcs && pcs[t].Asking?
      modifies `deferred, `requests, `pcs
      ensures S() == Next(old(S()), Ask(t)) && Inv(S())
      ensures go <==> held == multiset{}
      ensures deferred <==> old(deferred) || !go
    {
      hide Positive;
      NextKeeps(S(), Ask(t));
      if depth > 0 {
        deferred := true;
        requests := requests + 1;
        pcs := pcs[t := Outside];
        return false;
      }
      assert |held| == 0;
      pcs := pcs[t := if https then Gathering(pcs[t].keepList) else Finishing(pcs[t].keepList, None)];
      go := true;
    }

    /** The last section of a close; streams leave the list one by one. */
    method FinishClose(closed: Option<nat>, keepList: bool) returns (outcome: Outcome)
      modifies `deferred, `ssl, `ctx, `list
      ensures (C(), outcome) == Finished(old(C()), closed, keepList)
    {
      if depth > 0 {
        deferred := true;
        return Deferred;
      }
      if ctx.Some? && ctx != closed {
        return Again;
      }
      if ssl {
        if (https || quic) && !keepList {
          while list != {}
            invariant list <= old(list) && ssl == old(ssl) && ctx == old(ctx) && deferred == old(deferred)
            decreases |list|
          {
            var s :| s in list;
            list := list - {s};
          }
        }
        ssl := false;
      }
      ctx := None;
      outcome := Closed;
    }

    /** The last section run by thread t. */
    method Conclude(t: Thread)
      requires Inv(S()) && t in pcs && pcs[t].Finishing?
      modifies `deferred, `ssl, `ctx, `list, `requests, `pcs
      ensures S() == Next(old(S()), Finish(t)) && Inv(S())
      ensures held != multiset{} ==> ssl == old(ssl) && ctx == old(ctx) && list == old(list) && deferred
    {
      hide Positive;
      NextKeeps(S(), Finish(t));
      assert held != multiset{} ==> |held| > 0;
      var outcome := FinishClose(pcs[t].closed, pcs[t].keepList);
      match outcome {
        case Deferred =>
          requests := requests + 1;
          pcs := pcs[t := Outside];
        case Again => pcs := pcs[t := if https then Gathering(pcs[t].keepList) else Finishing(pcs[t].keepList, None)];
        case Closed => pcs := pcs[t := Outside];
      }
    }

    /** One critical section of one thread. */
    method Do(a: Step)
      requires Inv(S()) && Enabled(S(), a)
      modifies this
      ensures S() == Next(old(S()), a) && Inv(S())
      ensures Torn(old(C()), C()) ==> old(held) == multiset{}
    {
      hide Inv, Torn;
      NextKeeps(S(), a);
      Unguarded(S());
      match a {
        case Enter(t) => GuardEnter(t);
        case Leave(t) => var close := GuardLeave(t);
        case Call(t, keepList) => pcs := pcs[t := Asking(keepList)];
        case Ask(t) => var go := AskClose(t);
        case Gather(t) => pcs := pcs[t := Finishing(pcs[t].keepList, ctx)];
        case Finish(t) => Conclude(t);
        case ConnectSsl => ssl := true;
        case ConnectCtx(id) => ctx := Some(id);
        case AddStream(id) => list := list + {id};
      }
    }

    /** Any interleaving of the threads, on the object itself. */
    method Interleave(steps: seq<Step>)
      requires Start(S()) && Runs(S(), steps)
      modifies this
      ensures Runs(old(S()), steps) && S() == Run(old(S()), steps) && Inv(S())
      ensures attempts == Positive(periods) && (deferred ==> held != multiset{})
    {
      hide Next, Inv, Runs, Run, Enabled, Positive;
      ghost var s := S();
      StartInv(s);
      NoMore(s);
      assert steps[..0] == [];
      for i := 0 to |steps|
        invariant Inv(S()) && Runs(s, steps[..i]) && S() == Run(s, steps[..i])
      {
        RunsOn(s, steps, i);
        Do(steps[i]);
      }
      assert steps[..|steps|] == steps;
      Unguarded(S());
    }
  }

  lemma Leaving(s: Sys, t: Thread)
    requires Inv(s) && Enabled(s, Leave(t))
    ensures var n, (c, close) := Next(s, Leave(t)), Left(s.conn);
            && n.conn == c && n.pcs == (if close then s.pcs[t := Asking(false)] else s.pcs)
            && (close <==> |s.held| == 1 && s.requests > 0)
            && (|s.held| == 1 ==> !c.deferred && n.periods == s.periods + [s.requests])
  {
    hide Positive, CloserUnguarded;
    HeldGuards(s, t);
  }

  lemma Unguarded(s: Sys)
    requires Inv(s)
    ensures s.conn.depth == 0 <==> s.held == multiset{}
    ensures s.attempts == Positive(s.periods) && (s.conn.deferred ==> s.conn.depth > 0)
  {
    hide Positive;
    assert s.held != multiset{} ==> |s.held| > 0;
  }
}
