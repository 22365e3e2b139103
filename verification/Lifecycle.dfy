/**
 * The life of one upstream query (src/dns_client/query.c, dns_client.c, client_http2.c): sends,
 * replies, timeouts and failed streams, each taken as one event. The functions say what an event does
 * to the query; class Request does it field by field, and the lemmas are about every run of events.
 */
module Lifecycle {
  const QUERY_RETRY: int := 4

  /** stream says that each send to the server opens a stream of its own. */
  datatype Server = Server(id: nat, stream: bool)

  /** What became of one server in a round of sending. */
  datatype Attempt = Skipped | Refused(server: Server) | Accepted(server: Server)

  datatype Action = Ok | Retry | Drop | Bad

  /** What happened so far, for the statements below: sends, failed streams, sends still open, servers asked. */
  datatype Tally = Tally(sends: nat, fails: nat, open: multiset<Server>, asked: set<Server>)

  datatype Query = Query(sent: int, retry: int, hasResult: bool, hashed: bool, listed: bool, refs: int, replied: set<Server>,
                         callback: bool, ended: nat, freed: bool, streams: multiset<Server>, tally: Tally)

  // ---- What one event does ----

  function Delivered(round: seq<Attempt>): (d: seq<Server>)
    ensures |d| <= |round|
  {
    if round == [] then []
    else (if round[0].Accepted? then [round[0].server] else []) + Delivered(round[1..])
  }

  /** The second round is tried only when nothing was sent in the first. */
  function SentTo(first: seq<Attempt>, second: seq<Attempt>): seq<Server> {
    if Delivered(first) != [] then Delivered(first) else Delivered(second)
  }

  function Opened(d: seq<Server>): multiset<Server> {
    if d == [] then multiset{} else (if d[0].stream then multiset{d[0]} else multiset{}) + Opened(d[1..])
  }

  /** The last reference frees the query, and only then the caller is told the end. */
  function Released(q: Query): Query {
    if q.refs != 1 then q.(refs := q.refs - 1)
    else q.(refs := 0, ended := q.ended + (if q.callback then 1 else 0), freed := true, hashed := false, listed := false, streams := multiset{})
  }

  function Removed(q: Query): Query {
    Released(q.(hashed := false, listed := false))
  }

  function Got(q: Query): Query {
    q.(refs := q.refs + 1)
  }

  function Asked(t: Tally, d: seq<Server>): Tally {
    Tally(t.sends + |d|, t.fails, t.open + multiset(d), t.asked + (set s | s in d))
  }

  function Counted(q: Query, s: Server): Query {
    q.(replied := q.replied + {s}, sent := q.sent - 1, tally := q.tally.(open := q.tally.open - multiset{s}))
  }

  function Uncounted(q: Query, s: Server): Query {
    q.(replied := q.replied - {s}, sent := q.sent + 1, tally := q.tally.(open := q.tally.open + multiset{s}))
  }

  function Sent(q: Query, d: seq<Server>): Query {
    var q1 := q.(sent := q.sent + |d|, streams := q.streams + Opened(d), tally := Asked(q.tally, d));
    if q1.sent == 0 && d != [] then Removed(q1) else q1
  }

  function Retried(q: Query, d: seq<Server>): Query {
    var q1 := q.(retry := q.retry - 1);
    if q1.retry == 0 || q.hasResult then Removed(q1) else Sent(q1, d)
  }

  /** The count is invalid when a reply is counted and nothing is outstanding. */
  predicate Invalid(q: Query, s: Server) {
    s !in q.replied && q.sent <= 0
  }

  /** A reply that names the query, by server s; ignored says it lacks a required EDNS option. */
  function Answered(q: Query, s: Server, ignored: bool, act: Action, d: seq<Server>): Query {
    var q1 := Got(q);
    if ignored || s in q.replied then Released(q1)
    else
      var q2 := Counted(q1, s);
      if q2.sent < 0 || !q.callback then Released(q2)
      else
        match act
        case Drop => Released(Uncounted(q2, s))
        case Retry => Released(Retried(Uncounted(q2, s), d))
        case Ok => Released(if q2.sent == 0 then Removed(q2.(hasResult := true)) else q2.(hasResult := true))
        case Bad => Released(if q2.sent == 0 then Removed(q2) else q2)
  }

  function TimedOut(q: Query, d: seq<Server>): Query {
    Released(Retried(Got(q), d))
  }

  function Lost(q: Query, s: Server): Query {
    q.(sent := q.sent - 1, tally := q.tally.(fails := q.tally.fails + 1, open := q.tally.open - multiset{s}))
  }

  /** A stream of the query to s ended without an answer. */
  function Failed(q: Query, s: Server, d: seq<Server>): Query {
    var q1 := Got(q.(streams := q.streams - multiset{s}));
    var q2 := Lost(q1, s);
    if q2.sent < 0 then Released(q1)
    else if q.hasResult then Released(if q2.sent == 0 then Removed(q2) else q2)
    else Released(Retried(q2, d))
  }

  function Fresh(callback: bool): Query {
    Query(0, QUERY_RETRY, false, false, false, 0, {}, callback, 0, false, multiset{}, Tally(0, 0, multiset{}, {}))
  }

  /** dns_client_query; hashed says that an unused id was found. Nothing sent means the call fails. */
  function Started(hashed: bool, callback: bool, d: seq<Server>): Query {
    var q1 := Sent(Got(Got(Fresh(callback)).(hashed := hashed)), d);
    if d == [] then Removed(Released(q1).(callback := false))
    else Released(q1.(listed := q1.hashed))
  }

  // ---- Runs ----

  datatype Event =
    | Reply(server: Server, own: bool, ignored: bool, act: Action, resent: seq<Server>)
    | Timeout(resent: seq<Server>)
    | StreamFailed(server: Server, resent: seq<Server>)

  /** Replies find hashed queries, timeouts listed ones, and a stream fails only while it is open. */
  predicate Enabled(q: Query, e: Event) {
    && !q.freed
    && match e
       case Reply(s, own, _, _, _) => q.hashed && (own ==> s in q.streams)
       case Timeout(_) => q.listed
       case StreamFailed(s, _) => s in q.streams
  }

  /** A reply on the query's own stream completes the stream. */
  function Step(q: Query, e: Event): Query {
    if !Enabled(q, e) then q
    else
      match e
      case Reply(s, own, ignored, act, d) => Answered(if own then q.(streams := q.streams - multiset{s}) else q, s, ignored, act, d)
      case Timeout(d) => TimedOut(q, d)
      case StreamFailed(s, d) => Failed(q, s, d)
  }

  function Run(q: Query, events: seq<Event>): Query
    decreases |events|
  {
    if events == [] then q else Run(Step(q, events[0]), events[1..])
  }

  // ---- Every run: references, end, retries ----

  /** Between events an accepted query has the one reference of its table entry until it is freed. */
  predicate Steady(q: Query) {
    && (if q.freed then q.refs == 0 && !q.hashed && !q.listed && q.streams == multiset{} else q.refs == 1 && q.hashed == q.listed && q.retry >= 1)
    && q.ended == (if q.freed && q.callback then 1 else 0)
  }

  /** Inside an event, holding a reference: still in the tables, or removed from them. */
  predicate Busy(q: Query) {
    && !q.freed && q.ended == 0 && q.hashed == q.listed
    && (if q.refs == 2 then q.retry >= 1 else q.refs == 1 && !q.hashed)
  }

  lemma RetryBusy(q: Query, d: seq<Server>)
    requires Busy(q) && q.refs == 2
    ensures var r := Retried(q, d); Busy(r) && r.callback == q.callback
    ensures var r := Retried(q, d); r.refs == 2 ==> r.retry == q.retry - 1 && r.hashed == q.hashed
  {
  }

  lemma AnswerBusy(q: Query, s: Server, ignored: bool, act: Action, d: seq<Server>)
    requires Steady(q) && !q.freed
    ensures var r := Answered(q, s, ignored, act, d);
            Steady(r) && r.callback == q.callback && (r.freed || (r.retry <= q.retry && r.hashed == q.hashed))
  {
    hide Retried, Steady;
    SteadyShape(q);
    var q1 := Got(q);
    var q2 := Counted(q1, s);
    if ignored || s in q.replied {
      ReleaseKeeps(q1);
    } else if q2.sent < 0 || !q.callback {
      ReleaseKeeps(q2);
    } else {
      match act
      case Drop => ReleaseKeeps(Uncounted(q2, s));
      case Retry =>
        RetryBusy(Uncounted(q2, s), d);
        ReleaseKeeps(Retried(Uncounted(q2, s), d));
      case Ok => ReleaseKeeps(if q2.sent == 0 then Removed(q2.(hasResult := true)) else q2.(hasResult := true));
      case Bad => ReleaseKeeps(if q2.sent == 0 then Removed(q2) else q2);
    }
  }

  lemma ReleaseKeeps(q: Query)
    requires Busy(q)
    ensures var r := Released(q); Steady(r) && r.callback == q.callback && (r.freed <==> q.refs == 1)
    ensures var r := Released(q); !r.freed ==> r == q.(refs := 1)
  {
  }

  lemma StepSteady(q: Query, e: Event)
    requires Steady(q)
    ensures var r := Step(q, e);
            && Steady(r) && r.callback == q.callback
            && (r.freed || (r.retry <= q.retry && r.hashed == q.hashed && (e.Timeout? && q.listed ==> r.retry == q.retry - 1)))
  {
    hide Retried, Answered;
    if Enabled(q, e) {
      match e
      case Reply(s, own, ignored, act, d) =>
        AnswerBusy(if own then q.(streams := q.streams - multiset{s}) else q, s, ignored, act, d);
      case Timeout(d) =>
        RetryBusy(Got(q), d);
        ReleaseKeeps(Retried(Got(q), d));
      case StreamFailed(s, d) => FailSteady(q, s, d);
    }
  }

  lemma FailSteady(q: Query, s: Server, d: seq<Server>)
    requires Steady(q) && !q.freed
    ensures var r := Failed(q, s, d); Steady(r) && r.callback == q.callback && (r.freed || (r.retry <= q.retry && r.hashed == q.hashed))
  {
    hide Retried, Steady;
    SteadyShape(q);
    var q1 := Got(q.(streams := q.streams - multiset{s}));
    var q2 := Lost(q1, s);
    if q2.sent < 0 {
      ReleaseKeeps(q1);
    } else if q.hasResult {
      ReleaseKeeps(if q2.sent == 0 then Removed(q2) else q2);
    } else {
      RetryBusy(q2, d);
      ReleaseKeeps(Retried(q2, d));
    }
  }

  lemma StartSteady(hashed: bool, callback: bool, d: seq<Server>)
    ensures var q := Started(hashed, callback, d);
            && (if d == [] then q.freed && q.ended == 0 else Steady(q) && !q.freed && q.hashed == hashed && q.callback == callback && q.retry == QUERY_RETRY)
  {
  }

  /**
   * END exactly once: along every run of an accepted query the caller is told the end at most once,
   * and exactly when the query is freed; a refused query never calls back.
   */
  lemma {:induction false} EndsOnce(q: Query, events: seq<Event>)
    requires Steady(q)
    ensures var r := Run(q, events); Steady(r) && r.callback == q.callback && r.ended == (if r.freed && q.callback then 1 else 0)
    decreases |events|
  {
    hide Step, Steady;
    if events == [] {
      SteadyEnd(q);
    } else {
      StepSteady(q, events[0]);
      EndsOnce(Step(q, events[0]), events[1..]);
    }
  }

  lemma SteadyEnd(q: Query)
    requires Steady(q)
    ensures q.ended == (if q.freed && q.callback then 1 else 0)
  {
  }

  function Timeouts(events: seq<Event>): nat {
    if events == [] then 0 else (if events[0].Timeout? then 1 else 0) + Timeouts(events[1..])
  }

  /** A query in the tables is freed no later than by its last retry: four timeouts end every query. */
  lemma {:induction false} TimeoutsEnd(q: Query, events: seq<Event>)
    requires Steady(q) && q.hashed && Timeouts(events) >= q.retry
    ensures Run(q, events).freed
    decreases |events|
  {
    hide Step, Steady;
    SteadyShape(q);
    if q.freed {
      FreedStays(q, events);
    } else {
      StepSteady(q, events[0]);
      var r := Step(q, events[0]);
      if r.freed {
        FreedStays(r, events[1..]);
      } else {
        TimeoutsEnd(r, events[1..]);
      }
    }
  }

  lemma SteadyShape(q: Query)
    requires Steady(q)
    ensures !q.freed ==> q.listed == q.hashed && q.retry >= 1 && q.refs == 1 && q.ended == 0
  {
  }

  lemma {:induction false} FreedStays(q: Query, events: seq<Event>)
    requires q.freed
    ensures Run(q, events) == q
    decreases |events|
  {
    if events != [] {
      FreedStays(q, events[1..]);
    }
  }

  /** Accepted and hashed: four timeouts among any other events, and the caller was told the end exactly once. */
  lemma EveryQueryEnds(callback: bool, d: seq<Server>, events: seq<Event>)
    requires d != [] && Timeouts(events) >= QUERY_RETRY
    ensures var r := Run(Started(true, callback, d), events); r.freed && r.ended == (if callback then 1 else 0)
  {
    hide Run, Started;
    StartSteady(true, callback, d);
    TimeoutsEnd(Started(true, callback, d), events);
    EndsOnce(Started(true, callback, d), events);
  }

  // ---- Every run: the count ----

  /** dns_request_sent is successful sends, less failed streams, less counted replies. */
  predicate Balanced(q: Query) {
    q.sent == q.tally.sends - q.tally.fails - |q.replied|
  }

  lemma ReplyCount(q: Query, s: Server)
    requires Balanced(q) && s !in q.replied
    ensures Balanced(Counted(q, s)) && Uncounted(Counted(q, s), s).replied == q.replied && Balanced(Uncounted(Counted(q, s), s))
  {
    assert Uncounted(Counted(q, s), s).replied == q.replied;
  }

  /** Letting go of a reference does not touch the count; a freed query has no streams. */
  predicate SameCount(q: Query, r: Query) {
    r.sent == q.sent && r.replied == q.replied && r.tally == q.tally && (r.streams == q.streams || r.streams == multiset{})
  }

  lemma ReleaseCount(q: Query)
    ensures SameCount(q, Released(q)) && SameCount(q, Removed(q))
  {
  }

  function WithSends(q: Query, d: seq<Server>): Query {
    q.(sent := q.sent + |d|, streams := q.streams + Opened(d), tally := Asked(q.tally, d))
  }

  /** The queries an event passes through, up to references and marks. */
  lemma RetryCount(q: Query, d: seq<Server>)
    ensures SameCount(q, Retried(q, d))
            || SameCount(WithSends(q, d), Retried(q, d))
  {
    hide Released, Removed, Opened, Asked;
    ReleaseCount(q.(retry := q.retry - 1));
    ReleaseCount(q.(retry := q.retry - 1, sent := q.sent + |d|, streams := q.streams + Opened(d), tally := Asked(q.tally, d)));
  }

  lemma AnswerCount(q: Query, s: Server, ignored: bool, act: Action, d: seq<Server>) returns (p: Query)
    ensures SameCount(p, Answered(q, s, ignored, act, d))
    ensures ignored || s in q.replied ==> p == q
    ensures !ignored && s !in q.replied ==>
              p == Counted(q, s) || p == Uncounted(Counted(q, s), s) || p == Retried(Uncounted(Counted(Got(q), s), s), d)
  {
    hide Released, Retried, Removed;
    var q2 := Counted(Got(q), s);
    if ignored || s in q.replied {
      p := q;
      ReleaseCount(Got(q));
    } else if q2.sent < 0 || !q.callback {
      p := Counted(q, s);
      ReleaseCount(q2);
    } else if act == Drop {
      p := Uncounted(Counted(q, s), s);
      ReleaseCount(Uncounted(q2, s));
    } else if act == Retry {
      p := Retried(Uncounted(q2, s), d);
      ReleaseCount(p);
    } else {
      p := Counted(q, s);
      var q3 := if act == Ok then q2.(hasResult := true) else q2;
      ReleaseCount(q3);
      if q2.sent == 0 {
        ReleaseCount(Removed(q3));
      }
    }
  }

  lemma FailCount(q: Query, s: Server, d: seq<Server>) returns (p: Query)
    ensures SameCount(p, Failed(q, s, d))
    ensures var q1 := Got(q.(streams := q.streams - multiset{s}));
            if q.sent < 1 then p == q1 else p == Lost(q1, s) || p == Retried(Lost(q1, s), d)
  {
    hide Released, Retried, Removed;
    var q1 := Got(q.(streams := q.streams - multiset{s}));
    var q2 := Lost(q1, s);
    ReleaseCount(q1);
    ReleaseCount(q2);
    ReleaseCount(Removed(q2));
    ReleaseCount(Retried(q2, d));
    p := if q.sent < 1 then q1 else if q.hasResult then q2 else Retried(q2, d);
  }

  lemma BalancedSame(q: Query, r: Query)
    requires Balanced(q) && SameCount(q, r)
    ensures Balanced(r)
  {
  }

  lemma SendBalanced(q: Query, d: seq<Server>)
    requires Balanced(q)
    ensures Balanced(WithSends(q, d)) && Balanced(Retried(q, d))
  {
    hide Retried, Opened;
    RetryCount(q, d);
  }

  lemma StepBalanced(q: Query, e: Event)
    requires Balanced(q)
    ensures Balanced(Step(q, e))
  {
    hide Retried, Answered, Released, Removed, Failed, Balanced, SameCount;
    if Enabled(q, e) {
      match e
      case Reply(s, own, ignored, act, d) =>
        var p := if own then q.(streams := q.streams - multiset{s}) else q;
        CountIgnores(q, p);
        var m := AnswerCount(p, s, ignored, act, d);
        if !ignored && s !in q.replied {
          ReplyCount(p, s);
          CountIgnores(p, Got(p));
          ReplyCount(Got(p), s);
          SendBalanced(Uncounted(Counted(Got(p), s), s), d);
        }
        BalancedSame(m, Step(q, e));
      case Timeout(d) =>
        CountIgnores(q, Got(q));
        SendBalanced(Got(q), d);
        ReleaseCount(Retried(Got(q), d));
        BalancedSame(Retried(Got(q), d), Step(q, e));
      case StreamFailed(s, d) =>
        var q1 := Got(q.(streams := q.streams - multiset{s}));
        var m := FailCount(q, s, d);
        CountIgnores(q, q1);
        LoseBalanced(q1, s);
        SendBalanced(Lost(q1, s), d);
        BalancedSame(m, Step(q, e));
    }
  }

  lemma CountIgnores(q: Query, r: Query)
    requires Balanced(q) && r.sent == q.sent && r.tally == q.tally && r.replied == q.replied
    ensures Balanced(r)
  {
  }

  lemma LoseBalanced(q: Query, s: Server)
    requires Balanced(q)
    ensures Balanced(Lost(q, s))
  {
  }

  /** The count of every run of an accepted query. */
  lemma {:induction false} RunBalanced(q: Query, events: seq<Event>)
    requires Balanced(q)
    ensures Balanced(Run(q, events))
    decreases |events|
  {
    hide Step, Balanced;
    if events != [] {
      StepBalanced(q, events[0]);
      RunBalanced(Step(q, events[0]), events[1..]);
    }
  }

  lemma StartBalanced(hashed: bool, callback: bool, d: seq<Server>)
    ensures Balanced(Started(hashed, callback, d))
  {
  }

  /** The count of every run of every query, from the call that made it. */
  lemma EveryCount(hashed: bool, callback: bool, d: seq<Server>, events: seq<Event>)
    ensures var r := Run(Started(hashed, callback, d), events); r.sent == r.tally.sends - r.tally.fails - |r.replied|
  {
    hide Run, Started;
    StartBalanced(hashed, callback, d);
    RunBalanced(Started(hashed, callback, d), events);
  }

  // ---- When the count is invalid ----

  /** The event takes a "send count is invalid" branch. */
  predicate TakesInvalid(q: Query, e: Event) {
    Enabled(q, e) && ((e.Reply? && !e.ignored && Invalid(q, e.server)) || (e.StreamFailed? && q.sent < 1))
  }

  // ---- When servers answer for themselves ----

  /** Every open stream, and every server without streams that was asked and not counted, has an open send. */
  ghost predicate Fair(q: Query) {
    && q.sent == |q.tally.open|
    && (forall s :: q.streams[s] <= q.tally.open[s]) && (forall s :: s in q.streams ==> s.stream)
    && (forall s :: s in q.tally.asked && !s.stream ==> s in q.replied || s in q.tally.open)
  }

  /** A server with streams answers on the query's own stream; another answers only if it was asked. */
  predicate Honest(q: Query, e: Event) {
    e.Reply? ==> if e.server.stream then e.own else e.server in q.tally.asked
  }

  lemma {:induction false} OpenedBelow(d: seq<Server>, s: Server)
    ensures Opened(d)[s] <= multiset(d)[s] && (s in Opened(d) ==> s.stream)
  {
    if d != [] {
      OpenedBelow(d[1..], s);
      assert d == [d[0]] + d[1..];
    }
  }

  lemma SendFair(q: Query, d: seq<Server>)
    requires Fair(q)
    ensures Fair(WithSends(q, d)) && Fair(Retried(q, d))
  {
    hide Retried, Opened;
    var r := WithSends(q, d);
    forall s ensures r.streams[s] <= r.tally.open[s] && (s in r.streams ==> s.stream) {
      OpenedBelow(d, s);
    }
    RetryCount(q, d);
  }

  lemma CountFair(q: Query, s: Server)
    requires Fair(q) && s !in q.replied && q.streams[s] < q.tally.open[s]
    ensures Fair(Counted(q, s)) && Fair(Uncounted(Counted(q, s), s)) && q.sent >= 1
  {
    assert Uncounted(Counted(q, s), s).tally.open == q.tally.open;
  }

  lemma LoseFair(q: Query, s: Server)
    requires Fair(q) && s.stream && q.streams[s] < q.tally.open[s]
    ensures Fair(Lost(q, s)) && q.sent >= 1
  {
  }

  lemma FairSame(q: Query, r: Query)
    requires Fair(q) && SameCount(q, r)
    ensures Fair(r)
  {
  }

  lemma FairGot(q: Query)
    requires Fair(q)
    ensures Fair(Got(q))
  {
  }

  /** A stream leaves: what it was sent for is open beyond the streams. */
  lemma FairStream(q: Query, s: Server)
    requires Fair(q) && s in q.streams
    ensures var p := q.(streams := q.streams - multiset{s}); Fair(p) && s.stream && p.streams[s] < p.tally.open[s]
  {
  }

  /** An asked server that is not counted yet has a send open beyond its streams. */
  lemma FairAsked(q: Query, s: Server)
    requires Fair(q) && !s.stream && s in q.tally.asked && s !in q.replied
    ensures q.streams[s] < q.tally.open[s]
  {
    assert s !in q.streams;
  }

  /** The invalid-count branches are not taken, and fairness is kept. */
  lemma StepFair(q: Query, e: Event)
    requires Fair(q) && Enabled(q, e) && Honest(q, e)
    ensures Fair(Step(q, e))
    ensures e.Reply? && !e.ignored ==> !Invalid(q, e.server)
    ensures e.StreamFailed? ==> q.sent >= 1
  {
    hide Retried, Answered, Released, Removed, Failed, Fair, SameCount;
    match e
    case Reply(s, own, ignored, act, d) =>
      var p := q;
      if own {
        FairStream(q, s);
        p := q.(streams := q.streams - multiset{s});
      }
      var m := AnswerCount(p, s, ignored, act, d);
      if !ignored && s !in q.replied {
        if !s.stream {
          FairAsked(p, s);
        }
        CountFair(p, s);
        FairGot(p);
        CountFair(Got(p), s);
        SendFair(Uncounted(Counted(Got(p), s), s), d);
      }
      FairSame(m, Step(q, e));
    case Timeout(d) =>
      FairGot(q);
      SendFair(Got(q), d);
      ReleaseCount(Retried(Got(q), d));
      FairSame(Retried(Got(q), d), Step(q, e));
    case StreamFailed(s, d) =>
      FairStream(q, s);
      var p := q.(streams := q.streams - multiset{s});
      FairGot(p);
      LoseFair(Got(p), s);
      SendFair(Lost(Got(p), s), d);
      var m := FailCount(q, s, d);
      FairSame(m, Step(q, e));
  }

  /** Every event of the run is honest where it happens. */
  predicate AllHonest(q: Query, events: seq<Event>)
    decreases |events|
  {
    events == [] || ((Enabled(q, events[0]) ==> Honest(q, events[0])) && AllHonest(Step(q, events[0]), events[1..]))
  }

  /**
   * When servers answer for themselves the count is what is outstanding, so it is never negative and
   * the "send count is invalid" branches are out of reach, along every run.
   */
  lemma {:induction false} HonestRun(q: Query, events: seq<Event>, e: Event)
    requires Fair(q) && AllHonest(q, events)
    ensures var r := Run(q, events);
            && Fair(r) && r.sent == |r.tally.open| >= 0
            && (Enabled(r, e) && Honest(r, e) && e.Reply? && !e.ignored ==> !Invalid(r, e.server))
            && (Enabled(r, e) && e.StreamFailed? ==> r.sent >= 1)
    decreases |events|
  {
    hide Step, Fair, Enabled, Honest, Invalid;
    if events == [] {
      FairSent(q);
      if Enabled(q, e) && (e.Reply? ==> Honest(q, e)) {
        NotReply(q, e);
        StepFair(q, e);
      }
    } else {
      if Enabled(q, events[0]) {
        StepFair(q, events[0]);
      } else {
        Disabled(q, events[0]);
      }
      HonestRun(Step(q, events[0]), events[1..], e);
    }
  }

  lemma FairSent(q: Query)
    requires Fair(q)
    ensures q.sent == |q.tally.open| >= 0
  {
  }

  lemma NotReply(q: Query, e: Event)
    ensures !e.Reply? ==> Honest(q, e)
  {
  }

  lemma Disabled(q: Query, e: Event)
    requires !Enabled(q, e)
    ensures Step(q, e) == q
  {
  }

  lemma StartFair(hashed: bool, callback: bool, d: seq<Server>)
    ensures Fair(Started(hashed, callback, d))
  {
    var q := Got(Got(Fresh(callback)).(hashed := hashed));
    assert Fair(q);
    forall s ensures Opened(d)[s] <= multiset(d)[s] && (s in Opened(d) ==> s.stream) {
      OpenedBelow(d, s);
    }
    assert Fair(WithSends(q, d));
  }

  /** From the call that made the query: the count is the sends still open. */
  lemma HonestCount(hashed: bool, callback: bool, d: seq<Server>, events: seq<Event>, e: Event)
    requires AllHonest(Started(hashed, callback, d), events)
    ensures var r := Run(Started(hashed, callback, d), events);
            && r.sent == |r.tally.open| >= 0 && (Enabled(r, e) && Honest(r, e) ==> !TakesInvalid(r, e))
  {
    hide Run, Started, AllHonest, Honest, Fair;
    StartFair(hashed, callback, d);
    HonestRun(Started(hashed, callback, d), events, e);
  }

  /**
   * Without that, they are within reach although only an asked server answers: its stream fails, the
   * retry sends nothing, and then it answers on the stream of another query.
   */
  lemma InvalidReachable()
    ensures var s := Server(0, true);
            var q := Run(Started(true, true, [s]), [StreamFailed(s, [])]);
            var e := Reply(s, false, false, Ok, []);
            && s in q.tally.asked && Enabled(q, e) && Invalid(q, s) && Run(q, [e]).sent == -1
  {
    hide Started, Step, Run;
    var s := Server(0, true);
    var e := Reply(s, false, false, Ok, []);
    OneSend(s);
    OneFailure(s);
    var q0 := Query(1, 4, false, true, true, 1, {}, true, 0, false, multiset{s}, Tally(1, 0, multiset{s}, {s}));
    var q1 := Query(0, 3, false, true, true, 1, {}, true, 0, false, multiset{}, Tally(1, 1, multiset{}, {s}));
    OneStep(q0, StreamFailed(s, []));
    OneStep(q1, e);
    LateAnswer(q1, s);
  }

  lemma OneStep(q: Query, e: Event)
    ensures Run(q, [e]) == Step(q, e)
  {
    hide Step;
  }

  lemma OneSend(s: Server)
    requires s.stream
    ensures Started(true, true, [s]) == Query(1, 4, false, true, true, 1, {}, true, 0, false, multiset{s}, Tally(1, 0, multiset{s}, {s}))
  {
    assert Opened([s]) == multiset{s};
    assert multiset{} + multiset{s} == multiset{s} && multiset([s]) == multiset{s};
    assert (set x | x in [s]) == {s};
  }

  lemma OneFailure(s: Server)
    ensures Step(Query(1, 4, false, true, true, 1, {}, true, 0, false, multiset{s}, Tally(1, 0, multiset{s}, {s})), StreamFailed(s, []))
            == Query(0, 3, false, true, true, 1, {}, true, 0, false, multiset{}, Tally(1, 1, multiset{}, {s}))
  {
    assert multiset{s} - multiset{s} == multiset{} && Opened([]) == multiset{};
    assert Asked(Tally(1, 1, multiset{}, {s}), []) == Tally(1, 1, multiset{}, {s});
  }

  lemma LateAnswer(q: Query, s: Server)
    requires q.hashed && !q.freed && q.sent == 0 && s !in q.replied && q.refs == 1
    ensures var e := Reply(s, false, false, Ok, []); Enabled(q, e) && Invalid(q, s) && Step(q, e).sent == -1
  {
  }

  // ---- Exactly when the count can become invalid ----

  /**
   * The last send outstanding is used up and the query stays in the tables: its stream fails without
   * a result and the retry reaches no server, or it is answered and there is no callback to end on.
   */
  predicate Starves(q: Query, e: Event) {
    && Enabled(q, e) && q.hashed && q.sent == 1
    && match e
       case Reply(s, _, ignored, _, _) => !q.callback && !ignored && s !in q.replied
       case Timeout(_) => false
       case StreamFailed(_, d) => !q.hasResult && q.retry > 1 && d == []
  }

  predicate Starved(q: Query, events: seq<Event>)
    decreases |events|
  {
    events != [] && (Starves(q, events[0]) || Starved(Step(q, events[0]), events[1..]))
  }

  /** In the tables with nothing outstanding. */
  predicate Empty(q: Query) {
    q.hashed && q.sent < 1
  }

  lemma RetryEmpties(q: Query, d: seq<Server>)
    requires Busy(q) && q.refs == 2 && q.sent >= 0
    ensures Empty(Retried(q, d)) <==> q.hashed && q.sent == 0 && !q.hasResult && q.retry > 1 && d == []
  {
    hide Opened, Asked;
  }

  lemma ReleaseEmpties(q: Query)
    requires Busy(q)
    ensures Empty(Released(q)) == Empty(q) && Steady(Released(q)) && (q.refs == 2 ==> !Empty(Removed(q)) && Busy(Removed(q)))
  {
  }

  lemma AnswerEmpties(q: Query, s: Server, ignored: bool, act: Action, d: seq<Server>)
    requires Steady(q) && !q.freed && q.hashed && q.sent >= 1
    ensures Empty(Answered(q, s, ignored, act, d)) <==> q.sent == 1 && !q.callback && !ignored && s !in q.replied
  {
    hide Released, Removed, Retried, Steady;
    SteadyShape(q);
    var q1 := Got(q);
    var q2 := Counted(q1, s);
    if ignored || s in q.replied {
      ReleaseEmpties(q1);
    } else if !q.callback {
      ReleaseEmpties(q2);
    } else {
      match act
      case Drop => ReleaseEmpties(Uncounted(q2, s));
      case Retry =>
        RetryBusy(Uncounted(q2, s), d);
        RetryEmpties(Uncounted(q2, s), d);
        ReleaseEmpties(Retried(Uncounted(q2, s), d));
      case Ok => AnswerEnds(q2.(hasResult := true));
      case Bad => AnswerEnds(q2);
    }
  }

  lemma AnswerEnds(q: Query)
    requires Busy(q) && q.refs == 2 && q.sent >= 0
    ensures !Empty(Released(if q.sent == 0 then Removed(q) else q))
  {
    hide Released, Removed;
    ReleaseEmpties(q);
    if q.sent == 0 {
      ReleaseEmpties(Removed(q));
    }
  }

  lemma FailEmpties(q: Query, s: Server, d: seq<Server>)
    requires Steady(q) && !q.freed && q.hashed && q.sent >= 1
    ensures Empty(Failed(q, s, d)) <==> q.sent == 1 && !q.hasResult && q.retry > 1 && d == []
  {
    hide Released, Removed, Retried, Steady;
    SteadyShape(q);
    var q2 := Lost(Got(q.(streams := q.streams - multiset{s})), s);
    if q.hasResult {
      AnswerEnds(q2);
    } else {
      RetryBusy(q2, d);
      RetryEmpties(q2, d);
      ReleaseEmpties(Retried(q2, d));
    }
  }

  /** One event empties a query with sends outstanding exactly if it starves it. */
  lemma StepStarves(q: Query, e: Event)
    requires Steady(q) && q.hashed && q.sent >= 1
    ensures Empty(Step(q, e)) <==> Starves(q, e)
  {
    hide Answered, Failed, Retried, Released, Steady;
    HashedLives(q);
    if Enabled(q, e) {
      match e
      case Reply(s, own, ignored, act, d) =>
        StreamsApart(q, q.streams - multiset{s});
        AnswerEmpties(if own then q.(streams := q.streams - multiset{s}) else q, s, ignored, act, d);
      case Timeout(d) =>
        SteadyShape(q);
        RetryBusy(Got(q), d);
        RetryEmpties(Got(q), d);
        ReleaseEmpties(Retried(Got(q), d));
      case StreamFailed(s, d) => FailEmpties(q, s, d);
    }
  }

  lemma HashedLives(q: Query)
    requires Steady(q)
    ensures q.hashed ==> !q.freed
  {
  }

  lemma StreamsApart(q: Query, streams: multiset<Server>)
    requires Steady(q) && !q.freed
    ensures Steady(q.(streams := streams))
  {
  }

  /** Sends outstanding while in the tables; outside of them the count is what is open. */
  ghost predicate Sound(q: Query) {
    Steady(q) && if q.hashed then q.sent >= 1 else q.freed || Fair(q)
  }

  lemma SoundStep(q: Query, e: Event)
    requires Sound(q) && !Starves(q, e)
    ensures Sound(Step(q, e))
  {
    hide Step, Starves, Fair, Steady;
    StepSteady(q, e);
    HashedLives(q);
    HashedLives(Step(q, e));
    if q.hashed {
      StepStarves(q, e);
    } else if Enabled(q, e) && !q.freed {
      NotReply(q, e);
      StepFair(q, e);
    } else {
      Disabled(q, e);
    }
  }

  lemma SoundValid(q: Query, e: Event)
    requires Sound(q)
    ensures !TakesInvalid(q, e)
  {
    hide Fair, Steady;
    HashedLives(q);
    if Enabled(q, e) && !q.hashed {
      NotReply(q, e);
      StepFair(q, e);
    }
  }

  lemma {:induction false} NeverStarved(q: Query, events: seq<Event>, i: nat, e: Event)
    requires Sound(q) && !Starved(q, events) && i <= |events|
    ensures !TakesInvalid(Run(q, events[..i]), e)
    decreases |events|
  {
    hide Step, Starves, Sound, TakesInvalid;
    if i == 0 {
      SoundValid(q, e);
    } else {
      SoundStep(q, events[0]);
      NeverStarved(Step(q, events[0]), events[1..], i - 1, e);
      assert events[..i][1..] == events[1..][..i - 1];
    }
  }

  /** A server that was never heard of can always answer. */
  lemma {:induction false} Stranger(known: set<Server>) returns (s: Server)
    ensures s !in known && !s.stream && forall x :: x in known ==> x.id < s.id
    decreases |known|
  {
    if known == {} {
      s := Server(0, false);
    } else {
      var x :| x in known;
      var y := Stranger(known - {x});
      s := Server(x.id + y.id + 1, false);
    }
  }

  lemma {:induction false} StarvedReaches(q: Query, events: seq<Event>) returns (i: nat, e: Event)
    requires Sound(q) && Starved(q, events)
    ensures i <= |events| && TakesInvalid(Run(q, events[..i]), e)
    decreases |events|
  {
    hide Step, Starves, Sound, TakesInvalid;
    var r := Step(q, events[0]);
    if Starves(q, events[0]) {
      i := 1;
      e := StarvedNow(q, events[0]);
      assert events[..1] == [events[0]];
      OneStep(q, events[0]);
    } else {
      SoundStep(q, events[0]);
      i, e := StarvedReaches(r, events[1..]);
      assert events[..i + 1][1..] == events[1..][..i];
      i := i + 1;
    }
  }

  lemma StarvedNow(q: Query, e: Event) returns (f: Event)
    requires Sound(q) && Starves(q, e)
    ensures TakesInvalid(Step(q, e), f)
  {
    hide Step, Fair, Steady;
    StepStarves(q, e);
    StepSteady(q, e);
    HashedLives(Step(q, e));
    var s := Stranger(Step(q, e).replied);
    f := Reply(s, false, false, Bad, []);
  }

  /**
   * The exact condition, for every accepted query and every run, whatever server answers on whatever
   * stream: an invalid-count branch comes within reach if and only if some event starves the query.
   */
  lemma InvalidIffStarved(hashed: bool, callback: bool, d: seq<Server>, events: seq<Event>)
    requires d != []
    ensures var q := Started(hashed, callback, d);
            Starved(q, events) <==> exists i, e :: 0 <= i <= |events| && TakesInvalid(Run(q, events[..i]), e)
  {
    hide Run, Started, Starved, TakesInvalid;
    var q := Started(hashed, callback, d);
    StartSound(hashed, callback, d);
    if Starved(q, events) {
      var i, e := StarvedReaches(q, events);
    } else {
      forall i, e | 0 <= i <= |events| ensures !TakesInvalid(Run(q, events[..i]), e) {
        NeverStarved(q, events, i, e);
      }
    }
  }

  lemma StartSound(hashed: bool, callback: bool, d: seq<Server>)
    requires d != []
    ensures Sound(Started(hashed, callback, d))
  {
    hide Fair, Opened, Asked;
    StartFair(hashed, callback, d);
    StartSteady(hashed, callback, d);
  }

  // ---- The search for an unused id ----

  const ID_DRAWS: nat := 33

  /** One random id, and the ids in use by queries for the same name and type when it is drawn. */
  datatype Draw = Draw(sid: nat, taken: set<nat>)

  ghost predicate SomeFree(draws: seq<Draw>)
    requires |draws| >= ID_DRAWS
  {
    exists i :: 0 <= i < ID_DRAWS && draws[i].sid !in draws[i].taken
  }

  /** The first n ids are in use. */
  ghost predicate AllTaken(draws: seq<Draw>, n: int)
    requires n <= |draws|
  {
    forall j :: 0 <= j < n ==> draws[j].sid in draws[j].taken
  }

  /** Four timeouts end an accepted query in every run, if and only if one of its 33 ids was unused. */
  lemma EndsIffHashed(draws: seq<Draw>, callback: bool, d: seq<Server>)
    requires |draws| >= ID_DRAWS && d != []
    ensures SomeFree(draws) <==>
            forall events :: Timeouts(events) >= QUERY_RETRY ==> Run(Started(SomeFree(draws), callback, d), events).freed
  {
    hide Run, Started, Timeouts, SomeFree;
    if SomeFree(draws) {
      forall events | Timeouts(events) >= QUERY_RETRY ensures Run(Started(SomeFree(draws), callback, d), events).freed {
        EveryQueryEnds(callback, d, events);
      }
    } else {
      var q := Started(false, callback, d);
      StartSteady(false, callback, d);
      var events := seq(QUERY_RETRY, i => Timeout([]));
      ManyTimeouts(QUERY_RETRY, events);
      UnlistedWaits(q, events);
    }
  }

  lemma {:induction false} ManyTimeouts(n: nat, events: seq<Event>)
    requires |events| == n && forall e :: e in events ==> e.Timeout?
    ensures Timeouts(events) == n
  {
    if n > 0 {
      ManyTimeouts(n - 1, events[1..]);
    }
  }

  /** Timeouts find listed queries only. */
  lemma {:induction false} UnlistedWaits(q: Query, events: seq<Event>)
    requires Steady(q) && !q.hashed && !q.freed && forall e :: e in events ==> e.Timeout?
    ensures Run(q, events) == q
    decreases |events|
  {
    if events != [] {
      UnlistedWaits(q, events[1..]);
    }
  }

  /** How many failed streams reach the query in a run. */
  function Failures(q: Query, events: seq<Event>): nat
    decreases |events|
  {
    if events == [] then 0
    else (if events[0].StreamFailed? && Enabled(q, events[0]) then 1 else 0) + Failures(Step(q, events[0]), events[1..])
  }

  lemma {:induction false} FreedFails(q: Query, events: seq<Event>)
    requires q.freed
    ensures Failures(q, events) == 0
    decreases |events|
  {
    if events != [] {
      FreedFails(q, events[1..]);
    }
  }

  /** In no table only failed streams reach the query, and each costs one retry. */
  lemma {:induction false} UnhashedRun(q: Query, events: seq<Event>)
    requires Steady(q) && Fair(q) && !q.hashed && !q.freed && !q.hasResult
    ensures Run(q, events).freed <==> Failures(q, events) >= q.retry
    decreases |events|
  {
    hide Step, Fair, Steady;
    SteadyShape(q);
    if events != [] {
      var e, r := events[0], Step(q, events[0]);
      UnhashedStep(q, e);
      if r.freed {
        FreedStays(r, events[1..]);
        FreedFails(r, events[1..]);
      } else {
        UnhashedRun(r, events[1..]);
      }
    }
  }

  lemma UnhashedStep(q: Query, e: Event)
    requires Steady(q) && Fair(q) && !q.hashed && !q.freed && !q.hasResult
    ensures var r := Step(q, e);
            && Steady(r) && Fair(r) && !r.hasResult && !r.hashed
            && (if e.StreamFailed? && Enabled(q, e) then (r.freed <==> q.retry == 1) && r.retry == q.retry - 1 else r == q)
  {
    hide Fair, Steady, Failed, Answered, TimedOut;
    SteadyShape(q);
    StepSteady(q, e);
    if e.StreamFailed? && Enabled(q, e) {
      NotReply(q, e);
      StepFair(q, e);
      UnhashedFail(q, e.server, e.resent);
    }
  }

  lemma UnhashedFail(q: Query, s: Server, d: seq<Server>)
    requires Steady(q) && !q.hashed && !q.freed && !q.hasResult && q.sent >= 1
    ensures var r := Failed(q, s, d); (r.freed <==> q.retry == 1) && r.retry == q.retry - 1 && !r.hasResult && !r.hashed
  {
    hide Retried, Steady;
    SteadyShape(q);
    RetryUnhashed(Lost(Got(q.(streams := q.streams - multiset{s})), s), d);
  }

  lemma RetryUnhashed(q: Query, d: seq<Server>)
    requires Busy(q) && q.refs == 2 && !q.hashed && !q.hasResult && q.sent >= 0
    ensures var r := Retried(q, d);
            && r.refs == (if q.retry == 1 then 1 else 2) && r.retry == q.retry - 1 && !r.hasResult && !r.hashed && !r.freed
  {
    hide Opened, Asked;
  }

  /** Accepted, but in no table: such a query ends exactly with its fourth failed stream, so never without streams. */
  lemma UnhashedEnds(callback: bool, d: seq<Server>, events: seq<Event>)
    requires d != []
    ensures var q := Started(false, callback, d); Run(q, events).freed <==> Failures(q, events) >= QUERY_RETRY
  {
    hide Run, Fair, Failures;
    StartFair(false, callback, d);
    StartSteady(false, callback, d);
    UnhashedRun(Started(false, callback, d), events);
  }

  // ---- Field by field ----

  lemma {:induction false} DeliveredNext(round: seq<Attempt>, i: nat)
    requires i < |round|
    ensures Delivered(round[..i + 1]) == Delivered(round[..i]) + (if round[i].Accepted? then [round[i].server] else [])
    decreases i
  {
    if i == 0 {
      assert round[..1] == [round[0]] && round[..0] == [];
    } else {
      DeliveredNext(round[1..], i - 1);
      assert round[..i + 1][1..] == round[1..][..i] && round[..i][1..] == round[1..][..i - 1] && round[1..][i - 1] == round[i];
    }
  }

  lemma {:induction false} OpenedNext(d: seq<Server>, s: Server)
    ensures Opened(d + [s]) == Opened(d) + (if s.stream then multiset{s} else multiset{})
  {
    if d == [] {
      assert d + [s] == [s] && [s][1..] == [];
    } else {
      OpenedNext(d[1..], s);
      assert (d + [s])[1..] == d[1..] + [s];
    }
  }

  lemma SendsNext(q: Query, d: seq<Server>, s: Server)
    ensures var r := WithSends(q, d);
            WithSends(q, d + [s]) == r.(sent := r.sent + 1, streams := r.streams + (if s.stream then multiset{s} else multiset{}),
                                        tally := Tally(r.tally.sends + 1, r.tally.fails, r.tally.open + multiset{s}, r.tally.asked + {s}))
  {
    hide Opened;
    OpenedNext(d, s);
    assert (set x | x in d + [s]) == (set x | x in d) + {s};
  }

  lemma NoSends(q: Query)
    ensures WithSends(q, []) == q
  {
    assert q.tally.asked + (set x: Server | x in []) == q.tally.asked;
  }

  class Request {
    var sent: int
    var retry: int
    var hasResult: bool
    var hashed: bool
    var listed: bool
    var refs: int
    var replied: set<Server>
    var callback: bool
    ghost var ended: nat
    ghost var freed: bool
    var streams: multiset<Server>
    ghost var tally: Tally
    var sid: nat

    ghost function S(): Query
      reads this
    {
      Query(sent, retry, hasResult, hashed, listed, refs, replied, callback, ended, freed, streams, tally)
    }

    /** The id is drawn until one is unused, at most 33 times: _dns_client_add_hashmap. */
    method AddHashmap(draws: seq<Draw>)
      requires |draws| >= ID_DRAWS && !hashed
      modifies `hashed, `sid
      ensures hashed <==> SomeFree(draws)
      ensures hashed ==> exists i :: 0 <= i < ID_DRAWS && sid == draws[i].sid && sid !in draws[i].taken && AllTaken(draws, i)
    {
      var loop := 0;
      while loop <= 32
        invariant 0 <= loop <= ID_DRAWS && AllTaken(draws, loop) && !hashed
      {
        sid := draws[loop].sid;
        if sid !in draws[loop].taken {
          hashed := true;
          return;
        }
        loop := loop + 1;
      }
    }

    /** _dns_client_query_release. */
    method Release()
      modifies this
      ensures S() == Released(old(S()))
    {
      refs := refs - 1;
      if refs != 0 {
        return;
      }
      if callback {
        ended := ended + 1;
      }
      streams := multiset{};
      listed := false;
      hashed := false;
      freed := true;
    }

    /** _dns_client_query_remove. */
    method Remove()
      modifies this
      ensures S() == Removed(old(S()))
    {
      listed := false;
      hashed := false;
      Release();
    }

    /** _dns_client_query_get. */
    method Get()
      modifies `refs
      ensures S() == Got(old(S()))
    {
      refs := refs + 1;
    }

    /** A reply is counted: _dns_replied_check_add, and one less outstanding. */
    method Count(s: Server)
      modifies `replied, `sent, `tally
      ensures S() == Counted(old(S()), s)
    {
      replied := replied + {s};
      sent := sent - 1;
      tally := tally.(open := tally.open - multiset{s});
    }

    /** The reply is taken back: _dns_replied_check_remove. */
    method Uncount(s: Server)
      modifies `replied, `sent, `tally
      ensures S() == Uncounted(old(S()), s)
    {
      replied := replied - {s};
      sent := sent + 1;
      tally := tally.(open := tally.open + multiset{s});
    }

    /** _dns_client_send_one_packet: counted before the send, uncounted when it fails. */
    method SendOne(a: Attempt) returns (ok: bool)
      requires !a.Skipped?
      modifies `sent, `streams, `tally
      ensures ok == a.Accepted? && S() == if ok then WithSends(old(S()), [a.server]) else old(S())
    {
      hide WithSends;
      sent := sent + 1;
      if a.Refused? {
        sent := sent - 1;
        return false;
      }
      ghost var q := old(S());
      OneMore(q, a.server);
      streams := streams + (if a.server.stream then multiset{a.server} else multiset{});
      tally := Tally(tally.sends + 1, tally.fails, tally.open + multiset{a.server}, tally.asked + {a.server});
      ok := true;
    }

    /** One pass over the servers of the group. */
    method SendRound(round: seq<Attempt>) returns (count: nat)
      modifies `sent, `streams, `tally
      ensures S() == WithSends(old(S()), Delivered(round)) && count == |Delivered(round)|
    {
      hide Opened, Asked, WithSends, Delivered;
      count := 0;
      ghost var q := S();
      NoSends(q);
      assert round[..0] == [] && Delivered([]) == [] by { NoneDelivered(); }
      for i := 0 to |round|
        invariant S() == WithSends(q, Delivered(round[..i])) && count == |Delivered(round[..i])|
      {
        DeliveredNext(round, i);
        assert Delivered(round[..i]) + [] == Delivered(round[..i]);
        if !round[i].Skipped? {
          SendsMore(q, Delivered(round[..i]), round[i].server);
          var ok := SendOne(round[i]);
          if ok {
            count := count + 1;
          }
        }
      }
      assert round[..|round|] == round;
    }

    /** _dns_client_send_packet: a second round only when the first sent nothing. */
    method SendPacket(first: seq<Attempt>, second: seq<Attempt>) returns (ret: int)
      modifies this
      ensures S() == Sent(old(S()), SentTo(first, second)) && ret == (if SentTo(first, second) == [] then -1 else 0)
    {
      hide SentTo, WithSends, Removed, Sent;
      ghost var q := S();
      sent := sent + 1;
      var count := SendRounds(first, second);
      GuardedSends(q, SentTo(first, second));
      sent := sent - 1;
      SentIs(q, SentTo(first, second));
      assert S() == WithSends(q, SentTo(first, second));
      if sent == 0 && count > 0 {
        Remove();
      }
      ret := if count == 0 then -1 else 0;
    }

    method SendRounds(first: seq<Attempt>, second: seq<Attempt>) returns (count: nat)
      modifies `sent, `streams, `tally
      ensures S() == WithSends(old(S()), SentTo(first, second)) && count == |SentTo(first, second)|
    {
      hide Delivered, WithSends;
      ghost var q := S();
      count := SendRound(first);
      if count == 0 {
        NoSends(q);
        assert Delivered(first) == [];
        count := SendRound(second);
      }
    }

    /** _dns_client_retry_dns_query. */
    method RetryQuery(first: seq<Attempt>, second: seq<Attempt>)
      modifies this
      ensures S() == Retried(old(S()), SentTo(first, second))
    {
      retry := retry - 1;
      if retry == 0 || hasResult {
        Remove();
      } else {
        var ret := SendPacket(first, second);
      }
    }

    /** The counting and action part of _dns_client_recv, once the query was found. */
    method Recv(s: Server, ignored: bool, act: Action, first: seq<Attempt>, second: seq<Attempt>) returns (ret: int)
      modifies this
      ensures S() == Answered(old(S()), s, ignored, act, SentTo(first, second))
      ensures ret == if !ignored && Invalid(old(S()), s) then -1 else 0
    {
      hide Released, Removed, Retried, SentTo;
      Get();
      if ignored || s in replied {
        Release();
        return 0;
      }
      Count(s);
      var left := sent;
      if left < 0 {
        Release();
        return -1;
      }
      if callback {
        if act == Retry || act == Drop {
          Uncount(s);
          if act == Retry {
            RetryQuery(first, second);
          }
        } else {
          if act == Ok {
            hasResult := true;
          }
          if left == 0 {
            Remove();
          }
        }
      }
      Release();
      ret := 0;
    }

    /** The timeout part of _dns_client_period_run, on a query of the request list. */
    method Period(first: seq<Attempt>, second: seq<Attempt>)
      requires Steady(S()) && listed
      modifies this
      ensures S() == Step(old(S()), Timeout(SentTo(first, second)))
      ensures Steady(S()) && (freed || retry == old(retry) - 1) && (old(retry) == 1 || old(hasResult) ==> freed)
    {
      hide Released, Retried, SentTo, Steady;
      ghost var q, d := S(), SentTo(first, second);
      ListedLives(q);
      StepSteady(q, Timeout(d));
      LastRetry(q, d);
      Get();
      RetryQuery(first, second);
      Release();
    }

    /** _dns_client_http2_retry_query, after the failed stream of the query was detached. */
    method StreamRetry(s: Server, first: seq<Attempt>, second: seq<Attempt>)
      requires Steady(S()) && s in streams
      modifies this
      ensures S() == Step(old(S()), StreamFailed(s, SentTo(first, second)))
      ensures Steady(S()) && (freed || hashed == old(hashed))
      ensures freed || retry == old(retry) - 1 || old(hasResult) || (old(sent) < 1 && sent == old(sent))
    {
      hide Released, Removed, Retried, SentTo, Steady;
      ghost var q, d := S(), SentTo(first, second);
      StreamLives(q, s);
      StepSteady(q, StreamFailed(s, d));
      FailCosts(q, s, d);
      streams := streams - multiset{s};
      Get();
      var left := sent - 1;
      if left >= 0 {
        Lose(s);
        if hasResult {
          if left == 0 {
            Remove();
          }
        } else {
          RetryQuery(first, second);
        }
      }
      Release();
    }

    /** One event as it reaches the query through the tables and its streams. */
    method Handle(i: Input)
      requires Steady(S()) && Feasible(i)
      modifies this
      ensures S() == Step(old(S()), i.event) && Steady(S()) && callback == old(callback)
      ensures freed || (retry <= old(retry) && hashed == old(hashed))
    {
      hide Answered, Failed, TimedOut, SentTo, Steady;
      ghost var q := S();
      StepSteady(q, i.event);
      Reaches(q, i.event);
      match i.event {
        case Reply(s, own, ignored, act, d) =>
          if hashed && (own ==> s in streams) {
            if own {
              streams := streams - multiset{s};
            }
            var ret := Recv(s, ignored, act, i.first, i.second);
          }
        case Timeout(d) =>
          if listed {
            Period(i.first, i.second);
          }
        case StreamFailed(s, d) =>
          if s in streams {
            StreamRetry(s, i.first, i.second);
          }
      }
    }

    /** Every run on the object itself: END once and with the last reference, and in time. */
    method Serve(inputs: seq<Input>)
      requires Steady(S()) && forall i :: 0 <= i < |inputs| ==> Feasible(inputs[i])
      modifies this
      ensures S() == Run(old(S()), Events(inputs)) && Steady(S())
      ensures ended == (if freed && old(callback) then 1 else 0)
      ensures old(hashed) && Timeouts(Events(inputs)) >= old(retry) ==> freed
      ensures Balanced(old(S())) ==> Balanced(S())
    {
      hide Step, Steady, Balanced, Feasible, Run, Timeouts;
      ghost var q := S();
      assert Events(inputs)[..0] == [];
      RunNone(q);
      for i := 0 to |inputs|
        invariant Steady(S()) && S() == Run(q, Events(inputs)[..i])
      {
        RunNext(q, Events(inputs), i);
        Handle(inputs[i]);
      }
      assert Events(inputs)[..|inputs|] == Events(inputs);
      EndsOnce(q, Events(inputs));
      if q.hashed && Timeouts(Events(inputs)) >= q.retry {
        TimeoutsEnd(q, Events(inputs));
      }
      if Balanced(q) {
        RunBalanced(q, Events(inputs));
      }
    }

    method Lose(s: Server)
      modifies `sent, `tally
      ensures S() == Lost(old(S()), s)
    {
      sent := sent - 1;
      tally := tally.(fails := tally.fails + 1, open := tally.open - multiset{s});
    }

    /** dns_client_query. */
    method Start(draws: seq<Draw>, first: seq<Attempt>, second: seq<Attempt>) returns (ret: int)
      requires S() == Fresh(callback) && |draws| >= ID_DRAWS
      modifies this
      ensures S() == Started(SomeFree(draws), old(callback), SentTo(first, second)) && ret == (if SentTo(first, second) == [] then -1 else 0)
      ensures if ret == 0 then Steady(S()) && !freed && hashed == SomeFree(draws) && retry == QUERY_RETRY && Balanced(S()) else freed && ended == 0
    {
      hide Released, Removed, Sent, SentTo, Got, SomeFree, Steady, Balanced;
      StartSteady(SomeFree(draws), callback, SentTo(first, second));
      StartBalanced(SomeFree(draws), callback, SentTo(first, second));
      Enrol(draws);
      ghost var q := S();
      ret := SendPacket(first, second);
      assert S() == Sent(q, SentTo(first, second));
      if ret != 0 {
        GiveUp();
        return;
      }
      listed := hashed;
      Release();
    }

    /** The references of the tables and of the running call, and the id. */
    method Enrol(draws: seq<Draw>)
      requires !hashed && |draws| >= ID_DRAWS
      modifies `refs, `hashed, `sid
      ensures S() == Got(Got(old(S())).(hashed := SomeFree(draws)))
    {
      Get();
      AddHashmap(draws);
      Get();
    }

    /** The caller hears of a query that could not be sent only by the return value. */
    method GiveUp()
      modifies this
      ensures S() == Removed(Released(old(S())).(callback := false))
    {
      hide Released, Removed;
      Release();
      callback := false;
      Remove();
    }
  }

  lemma ListedLives(q: Query)
    requires Steady(q) && q.listed
    ensures !q.freed && q.hashed
  {
  }

  lemma StreamLives(q: Query, s: Server)
    requires Steady(q) && s in q.streams
    ensures !q.freed
  {
  }

  lemma LastRetry(q: Query, d: seq<Server>)
    requires Steady(q) && !q.freed
    ensures q.retry == 1 || q.hasResult ==> TimedOut(q, d).freed
  {
  }

  /** A failed stream costs a retry, unless there is a result or the count is invalid. */
  lemma FailCosts(q: Query, s: Server, d: seq<Server>)
    requires Steady(q) && !q.freed
    ensures var r := Failed(q, s, d);
            r.freed || r.retry == q.retry - 1 || q.hasResult || (q.sent < 1 && r.sent == q.sent)
  {
    hide Opened, Asked;
  }

  /** An event with the rounds of sending it leads to. */
  datatype Input = Input(event: Event, first: seq<Attempt>, second: seq<Attempt>)

  predicate Feasible(i: Input) {
    i.event.resent == SentTo(i.first, i.second)
  }

  function Events(inputs: seq<Input>): (es: seq<Event>)
    ensures |es| == |inputs| && forall i :: 0 <= i < |es| ==> es[i] == inputs[i].event
  {
    if inputs == [] then [] else [inputs[0].event] + Events(inputs[1..])
  }

  /** A freed query is in no table and has no streams, so the tables and streams say what is enabled. */
  lemma Reaches(q: Query, e: Event)
    requires Steady(q)
    ensures Enabled(q, e) <==> match e
                               case Reply(s, own, _, _, _) => q.hashed && (own ==> s in q.streams)
                               case Timeout(_) => q.listed
                               case StreamFailed(s, _) => s in q.streams
  {
  }

  lemma RunNone(q: Query)
    ensures Run(q, []) == q
  {
  }

  lemma {:induction false} RunNext(q: Query, events: seq<Event>, i: nat)
    requires i < |events|
    ensures Run(q, events[..i + 1]) == Step(Run(q, events[..i]), events[i])
    decreases i
  {
    hide Step;
    if i == 0 {
      assert events[..1] == [events[0]] && events[..0] == [];
    } else {
      RunNext(Step(q, events[0]), events[1..], i - 1);
      assert events[..i + 1][1..] == events[1..][..i] && events[..i][1..] == events[1..][..i - 1] && events[1..][i - 1] == events[i];
    }
  }

  lemma SendsMore(q: Query, d: seq<Server>, s: Server)
    ensures WithSends(WithSends(q, d), [s]) == WithSends(q, d + [s])
  {
    hide Opened;
    SendsNext(q, d, s);
    OpenedNext([], s);
    assert [] + [s] == [s] && Opened([]) == multiset{} by { NothingOpened(); }
    assert (set x | x in [s]) == {s} && multiset([s]) == multiset{s};
  }

  lemma NothingOpened()
    ensures Opened([]) == multiset{}
  {
  }

  lemma OneMore(q: Query, s: Server)
    ensures WithSends(q, [s])
            == q.(sent := q.sent + 1, streams := q.streams + (if s.stream then multiset{s} else multiset{}),
                  tally := Tally(q.tally.sends + 1, q.tally.fails, q.tally.open + multiset{s}, q.tally.asked + {s}))
  {
    hide WithSends;
    NoSends(q);
    SendsNext(q, [], s);
    assert [] + [s] == [s];
  }

  lemma NoneDelivered()
    ensures Delivered([]) == []
  {
  }

  /** The extra count around the rounds does not mix with the sends. */
  lemma GuardedSends(q: Query, d: seq<Server>)
    ensures WithSends(q.(sent := q.sent + 1), d) == WithSends(q, d).(sent := WithSends(q, d).sent + 1)
  {
  }

  lemma SentIs(q: Query, d: seq<Server>)
    ensures Sent(q, d) == if WithSends(q, d).sent == 0 && d != [] then Removed(WithSends(q, d)) else WithSends(q, d)
  {
  }
}
