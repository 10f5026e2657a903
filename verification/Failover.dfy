/** The gateway's failover loop and what it records (controller/gateway/proxy.go). */
module Failover {
  import opened Ordering
  import opened Picker
  import U = Usage

  /** Token counts read from an answer. */
  datatype Tokens = Tokens(prompt: int, cached: int, completion: int, genTPS: real)

  /** What happens to one forwarded request: it cannot be sent, the node does
      not answer (or the client hangs up first), or it answers and the copy to
      the client is complete or cut off. */
  datatype Outcome =
    | NotSent
    | NoResponse(clientGone: bool)
    | Response(status: int, contextExceeded: bool, used: Tokens, cut: bool)

  /** forward's result: nil, a retryable failure, a prompt too long for the
      node, or a failure after bytes reached the client. */
  datatype Result = Done | Retryable | ContextTooSmall | Fatal

  /** The rest of the system at one moment: ready nodes, which models can call
      tools, the time, what the next forwarded request meets, and the time when
      that is over. */
  datatype Env = Env(routable: seq<Backend>, capable: string -> bool, outcome: Outcome, now: int, ended: int)

  /** A resolved target: node is set for node targets, pool for targets with a
      list of nodes. */
  datatype Target = Target(node: string, pool: bool, allows: Backend -> bool)

  datatype Reason = NodeUnavailable | ModelNotFound | ContextTooLarge | Busy | BackendsFailed

  datatype Reply = Answered(result: Result) | Refused(reason: Reason, code: int)

  /** How an attempt's node was chosen: what became of its session, the sessions
      after pruning, and what the picker remembers afterwards. */
  datatype Routing = Routing(decision: Decision, kept: Sessions, after: Memory)

  /** One forwarded attempt; at is when it was over. */
  datatype Try = Try(backend: Backend, outcome: Outcome, at: int, routing: Routing)
  {
    function Result(): Result { ResultOf(outcome) }
  }

  /** A parsed request: model is what the client asked for, est its estimated
      tokens; env(0) is the system when it arrives, env(k) at attempt k. */
  datatype Call = Call(target: Target, req: Request, model: string, wantTools: bool, est: int, principal: string, env: nat -> Env)

  /** The gateway's state when a request arrives, and its configuration. */
  datatype Was = Was(inflight: map<string, int>, cooldown: map<string, int>, pause: int, maxAttempts: int, limits: Limits, memory: Memory)
  {
    /** Node targets never fail over. */
    function Limit(c: Call): int { if c.target.node != "" then 1 else maxAttempts }
  }

  /** The backends that may serve the call; one with tools goes to models that
      can call them, if there are any. */
  function Eligible(c: Call, env: Env): seq<Backend>
  {
    var all := Filter(c.target.allows, env.routable);
    var capable := Filter((b: Backend) => env.capable(b.model), all);
    if c.wantTools && c.target.node == "" && capable != [] then capable else all
  }

  // ----- candidates -----------------------------------------------------------------

  /** What candidates looks at besides the backends. */
  datatype Situation = Situation(tried: set<string>, est: int, inflight: map<string, int>, cooldown: map<string, int>, now: int)

  function Get(m: map<string, int>, n: string): int { if n in m then m[n] else 0 }

  predicate Open(b: Backend, s: Situation)
  {
    && b.nodeId !in s.tried
    && (b.ctxSize > 0 ==> s.est <= b.ctxSize)
    && (b.maxConcurrency > 0 ==> Get(s.inflight, b.nodeId) < b.maxConcurrency)
  }

  /** The zero time is before every request, so a node never marked down is not
      cooling. */
  predicate Cooling(b: Backend, s: Situation) { b.nodeId in s.cooldown && s.now < s.cooldown[b.nodeId] }

  ghost function IsHealthy(s: Situation): Backend -> bool { (b: Backend) => Open(b, s) && !Cooling(b, s) }

  ghost function IsCooling(s: Situation): Backend -> bool { (b: Backend) => Open(b, s) && Cooling(b, s) }

  /** b may be tried next: open, and not cooling down unless every open one is. */
  ghost predicate Offered(b: Backend, all: seq<Backend>, s: Situation)
  {
    Open(b, s) && (Cooling(b, s) ==> forall x :: x in all && Open(x, s) ==> Cooling(x, s))
  }

  ghost function IsOffered(all: seq<Backend>, s: Situation): Backend -> bool { (b: Backend) => Offered(b, all, s) }

  ghost function Candidates(all: seq<Backend>, s: Situation): seq<Backend> { Filter(IsOffered(all, s), all) }

  lemma {:induction false} FilterSame<T(!new)>(f: T -> bool, g: T -> bool, s: seq<T>)
    requires forall x :: x in s ==> f(x) == g(x)
    ensures Filter(f, s) == Filter(g, s)
  {
    if s != [] { FilterSame(f, g, s[..|s| - 1]); }
  }

  method FindCandidates(all: seq<Backend>, s: Situation) returns (r: seq<Backend>)
    ensures r == Candidates(all, s)
    ensures forall b :: b in r <==> b in all && Offered(b, all, s)
  {
    hide Open, Cooling, Offered, Candidates;
    var healthy, cooling := [], [];
    for i := 0 to |all|
      invariant healthy == Filter(IsHealthy(s), all[..i]) && cooling == Filter(IsCooling(s), all[..i])
    {
      hide Filter;
      FilterStep(IsHealthy(s), all, i);
      FilterStep(IsCooling(s), all, i);
      var b := all[i];
      if Open(b, s) {
        if Cooling(b, s) { cooling := cooling + [b]; } else { healthy := healthy + [b]; }
      }
    }
    assert all[..|all|] == all;
    r := if |healthy| > 0 then healthy else cooling;
    OfferedAre(all, s);
  }

  /** The healthy backends are offered; the cooling ones if none is healthy. */
  lemma OfferedAre(all: seq<Backend>, s: Situation)
    ensures Candidates(all, s) == var healthy := Filter(IsHealthy(s), all); if healthy != [] then healthy else Filter(IsCooling(s), all)
    ensures forall b :: b in Candidates(all, s) <==> b in all && Offered(b, all, s)
  {
    hide Open, Cooling;
    var healthy := Filter(IsHealthy(s), all);
    if healthy != [] {
      assert healthy[0] in healthy;
      FilterSame(IsHealthy(s), IsOffered(all, s), all);
    } else {
      FilterSame(IsCooling(s), IsOffered(all, s), all);
    }
  }

  /** Candidates only reads counts, so equal counts give equal candidates. */
  lemma CandidatesSame(all: seq<Backend>, s: Situation, t: Situation)
    requires s.(inflight := t.inflight) == t && forall n :: Get(s.inflight, n) == Get(t.inflight, n)
    ensures Candidates(all, s) == Candidates(all, t)
  {
    assert forall b :: Open(b, s) == Open(b, t) && Cooling(b, s) == Cooling(b, t);
    hide Open, Cooling;
    FilterSame(IsOffered(all, s), IsOffered(all, t), all);
  }

  // ----- the context check --------------------------------------------------------------

  method MaxContext(all: seq<Backend>) returns (m: int)
    ensures m >= 0 && forall b :: b in all ==> b.ctxSize <= m
    ensures m > 0 ==> exists b :: b in all && b.ctxSize == m
  {
    m := 0;
    for i := 0 to |all|
      invariant m >= 0 && forall k :: 0 <= k < i ==> all[k].ctxSize <= m
      invariant m > 0 ==> exists b :: b in all && b.ctxSize == m
    {
      assert all[i] in all;
      if all[i].ctxSize > m { m := all[i].ctxSize; }
    }
  }

  ghost predicate TooLarge(all: seq<Backend>, est: int)
  {
    (exists b :: b in all && b.ctxSize > 0) && (forall b :: b in all ==> b.ctxSize < est)
  }

  // ----- the record of one request ---------------------------------------------------------

  predicate Retries(r: Result) { r == Retryable || r == ContextTooSmall }

  /** The nodes tried, as a set. */
  ghost function TriedBy(tries: seq<Try>): set<string> { set t | t in tries :: t.backend.nodeId }

  /** Cooldowns after the attempts: a node that failed is avoided for a while,
      one whose context was too small is not. */
  ghost function Cooldowns(was: map<string, int>, tries: seq<Try>, pause: int): map<string, int>
  {
    if tries == [] then was
    else
      var t := tries[|tries| - 1];
      var before := Cooldowns(was, tries[..|tries| - 1], pause);
      if t.Result() == Retryable || t.Result() == Fatal then before[t.backend.nodeId := t.at + pause] else before
  }

  /** Situation at attempt |tries| + 1. */
  ghost function Now(tries: seq<Try>, c: Call, was: Was): Situation
  {
    Situation(TriedBy(tries), c.est, was.inflight, Cooldowns(was.cooldown, tries, was.pause), c.env(|tries| + 1).now)
  }

  /** The candidates at attempt |tries| + 1. */
  ghost function Next(tries: seq<Try>, c: Call, was: Was): seq<Backend>
  {
    Candidates(Eligible(c, c.env(|tries| + 1)), Now(tries, c, was))
  }

  /** What the picker remembers after the attempts. */
  ghost function Remembered(tries: seq<Try>, was: Memory): Memory
  {
    if tries == [] then was else tries[|tries| - 1].routing.after
  }

  /** t goes to the first candidate for a node target, and otherwise where the
      sessions of that moment send it. */
  ghost predicate Sent(t: Try, cands: seq<Backend>, before: Memory, c: Call, was: Was, now: int)
  {
    if c.target.node != "" then cands != [] && t.backend == cands[0] && t.routing.after == before
    else Picks(was.limits, before, c.req, cands, Load(was.inflight), now, t.backend, t.routing.decision, t.routing.kept, t.routing.after)
  }

  /** t is an attempt after these: on a candidate of that moment, where its
      session sends it. */
  ghost predicate CanFollow(t: Try, tries: seq<Try>, c: Call, was: Was)
  {
    var cands, env := Next(tries, c, was), c.env(|tries| + 1);
    && t.backend in cands && Sent(t, cands, Remembered(tries, was.memory), c, was, env.now)
    && t.at == env.ended && t.outcome == env.outcome
  }

  /** Attempt i could follow the ones before it. */
  ghost predicate GoodTry(tries: seq<Try>, i: nat, c: Call, was: Was)
    requires i < |tries|
  {
    CanFollow(tries[i], tries[..i], c, was)
  }

  ghost predicate GoodTries(tries: seq<Try>, c: Call, was: Was)
  {
    forall i :: 0 <= i < |tries| ==> GoodTry(tries, i, c, was)
  }

  /** entries[i] is attempt i's one event: an upstream error when the gateway may
      still retry, otherwise the client's outcome. */
  ghost predicate Recorded(tries: seq<Try>, entries: seq<U.Entry>, principal: string)
  {
    && |tries| == |entries|
    && forall i :: 0 <= i < |tries| ==> Reports(entries[i], tries[i], principal)
  }

  ghost predicate Reports(entry: U.Entry, t: Try, principal: string)
  {
    entry == U.Entry(if Retries(t.Result()) then U.Event(principal, t.backend.nodeId, t.backend.model, U.UpstreamError, 0, 0, 0, 0.0)
                     else EventOf(t.outcome, t.backend, principal), t.at)
  }

  /** What a whole request records: its attempts, then, unless one of them
      answered the client, one refusal of no node. */
  ghost predicate Accounted(reply: Reply, tries: seq<Try>, entries: seq<U.Entry>, principal: string)
  {
    match reply
    case Answered(result) =>
      && tries != [] && Recorded(tries, entries, principal) && tries[|tries| - 1].Result() == result && !Retries(result)
      && (forall i :: 0 <= i < |tries| - 1 ==> Retries(tries[i].Result()))
    case Refused(_, code) =>
      && |entries| == |tries| + 1 && Recorded(tries, entries[..|tries|], principal)
      && (forall i :: 0 <= i < |tries| ==> Retries(tries[i].Result()))
      && entries[|tries|].event == U.Event(principal, "", entries[|tries|].event.model, U.Status(code), 0, 0, 0, 0.0)
  }

  /** The request counts once for its key, however many nodes failed on it. */
  lemma AccountedOnce(reply: Reply, tries: seq<Try>, entries: seq<U.Entry>, principal: string)
    requires Accounted(reply, tries, entries, principal)
    ensures U.OneOutcome(U.Request(principal, entries))
  {
    var last := |entries| - 1;
    forall i | 0 <= i < last ensures !U.Outcomes()(entries[i]) {
      if reply.Refused? { assert entries[..|tries|][i] == entries[i]; }
    }
    NoOutcomes(entries[..last]);
    if reply.Refused? { assert forall i :: 0 <= i < last ==> entries[..|tries|][i] == entries[i]; }
  }

  lemma {:induction false} NoOutcomes(entries: seq<U.Entry>)
    requires forall i :: 0 <= i < |entries| ==> !U.Outcomes()(entries[i])
    ensures U.Count(U.Outcomes(), entries) == 0
  {
    if entries != [] { NoOutcomes(entries[..|entries| - 1]); }
  }

  /** No node is attempted twice. */
  lemma NoNodeTwice(tries: seq<Try>, c: Call, was: Was, i: nat, j: nat)
    requires i < j < |tries| && GoodTry(tries, j, c, was)
    ensures tries[i].backend.nodeId != tries[j].backend.nodeId
  {
    assert tries[..j][i] in tries[..j];
    assert tries[i].backend.nodeId in TriedBy(tries[..j]);
  }

  /** Each node's count grows by one per attempt on it; a refusal counts for no
      node. */
  lemma AttemptsCount(reply: Reply, tries: seq<Try>, entries: seq<U.Entry>, principal: string, n: string)
    requires Accounted(reply, tries, entries, principal) && n != ""
    ensures U.Count(U.ForNode(n), entries) == |Filter(OnNode(n), tries)|
  {
    NodeCount(tries, entries[..|tries|], principal, n);
    if reply.Refused? {
      assert entries == entries[..|tries|] + [entries[|tries|]];
      U.CountSnoc(U.ForNode(n), entries[..|tries|], entries[|tries|]);
    } else {
      assert entries[..|tries|] == entries;
    }
  }

  lemma NothingOn(n: string)
    ensures U.Count(U.ForNode(n), []) == |Filter(OnNode(n), [])| == 0
  {
  }

  lemma {:induction false} NodeCount(tries: seq<Try>, entries: seq<U.Entry>, principal: string, n: string)
    requires Recorded(tries, entries, principal) && n != ""
    ensures U.Count(U.ForNode(n), entries) == |Filter(OnNode(n), tries)|
  {
    hide U.Count, Filter;
    if tries == [] {
      NothingOn(n);
    } else {
      var m := |tries| - 1;
      NodeCount(tries[..m], entries[..m], principal, n);
      assert entries == entries[..m] + [entries[m]];
      assert tries == tries[..m] + [tries[m]];
      FilterSnoc(OnNode(n), tries[..m], tries[m]);
      U.CountSnoc(U.ForNode(n), entries[..m], entries[m]);
    }
  }

  lemma TriedSnoc(tries: seq<Try>, t: Try)
    ensures TriedBy(tries + [t]) == TriedBy(tries) + {t.backend.nodeId}
  {
    assert forall x :: x in tries + [t] <==> x in tries || x == t;
  }

  /** How an outcome ends the attempt. */
  function ResultOf(o: Outcome): (r: Result)
    ensures r == Done ==> o.NoResponse? || o.Response?
  {
    match o
    case NotSent => Retryable
    case NoResponse(clientGone) => if clientGone then Done else Retryable
    case Response(status, exceeded, _, cut) =>
      if status >= 500 then Retryable
      else if status == 400 && exceeded then ContextTooSmall
      else if cut then Fatal else Done
  }

  /** What an outcome that ends the request is recorded as; only a 200 has
      token counts. */
  ghost function EventOf(o: Outcome, b: Backend, principal: string): U.Event
    requires !Retries(ResultOf(o))
  {
    match o
    case NoResponse(_) => U.Event(principal, b.nodeId, b.model, U.Status(499), 0, 0, 0, 0.0)
    case Response(status, _, used, cut) =>
      var code := if cut then U.Aborted else U.Status(status);
      var counted := if status == 200 then used else Tokens(0, 0, 0, 0.0);
      U.Event(principal, b.nodeId, b.model, code, counted.prompt, counted.cached, counted.completion, counted.genTPS)
  }

  const NOTHING_TRIED := Try(Backend("", "", 0.0, false, 0, 0), NotSent, 0, Routing(NoKey, map[], Memory(map[], 0)))
  const NOTHING_RECORDED := U.Entry(U.Event("", "", "", U.Aborted, 0, 0, 0, 0.0), 0)

  // ----- the gateway ----------------------------------------------------------------------

  class Gateway {
    const maxAttempts: int
    const pause: int
    const picker: Affinity
    const usage: U.Recorder
    var inflight: map<string, int>
    var cooldown: map<string, int>

    ghost predicate Valid()
      reads this, picker, usage, usage.session, usage.lifetime
    {
      picker.Valid() && usage.Valid()
    }

    constructor (maxAttempts: int, pause: int, picker: Affinity, usage: U.Recorder)
      requires picker.Valid() && usage.Valid()
      ensures Valid() && this.picker == picker && this.usage == usage && inflight == map[] && cooldown == map[]
    {
      this.maxAttempts, this.pause, this.picker, this.usage := maxAttempts, pause, picker, usage;
      inflight, cooldown := map[], map[];
    }

    method MarkDown(node: string, now: int)
      modifies this`cooldown
      ensures cooldown == old(cooldown)[node := now + pause]
    {
      cooldown := cooldown[node := now + pause];
    }

    method AddInflight(node: string, d: int)
      modifies this`inflight
      ensures forall n :: Get(inflight, n) == Get(old(inflight), n) + (if n == node then d else 0)
    {
      inflight := inflight[node := Get(inflight, node) + d];
    }

    /** forward: records an outcome exactly when it ends the request. */
    method Forward(b: Backend, principal: string, env: Env) returns (result: Result, ghost entries: seq<U.Entry>)
      requires usage.Valid()
      modifies this`inflight, usage.session, usage.lifetime
      ensures usage.Valid() && usage.session.log == old(usage.session.log) + entries && usage.lifetime.log == old(usage.lifetime.log) + entries
      ensures forall n :: Get(inflight, n) == Get(old(inflight), n)
      ensures result == ResultOf(env.outcome)
      ensures entries == if Retries(result) then [] else [U.Entry(EventOf(env.outcome, b, principal), env.ended)]
    {
      AddInflight(b.nodeId, 1);
      entries := [];
      match env.outcome {
        case NotSent => result := Retryable;
        case NoResponse(clientGone) =>
          if clientGone {
            var ev := U.Event(principal, b.nodeId, b.model, U.Status(499), 0, 0, 0, 0.0);
            usage.Record(ev, env.ended);
            result, entries := Done, [U.Entry(ev, env.ended)];
          } else {
            result := Retryable;
          }
        case Response(status, exceeded, used, cut) =>
          if status >= 500 {
            result := Retryable;
          } else if status == 400 && exceeded {
            result := ContextTooSmall;
          } else {
            var ev := U.Event(principal, b.nodeId, b.model, if cut then U.Aborted else U.Status(status), 0, 0, 0, 0.0);
            if status == 200 {
              ev := ev.(promptTokens := used.prompt, cachedTokens := used.cached, completionTokens := used.completion, genTPS := used.genTPS);
            }
            usage.Record(ev, env.ended);
            result, entries := if cut then Fatal else Done, [U.Entry(ev, env.ended)];
          }
      }
      AddInflight(b.nodeId, -1);
    }

    /** Node targets bypass the picker. */
    method Choose(c: Call, cands: seq<Backend>, now: int) returns (b: Backend, ghost routing: Routing)
      requires Valid() && cands != []
      modifies picker`rr, picker`keys
      ensures Valid() && b in cands && routing.after == picker.Remembers()
      ensures if c.target.node != "" then b == cands[0] && picker.Remembers() == old(picker.Remembers())
              else Picks(picker.Settings(), old(picker.Remembers()), c.req, cands, Load(inflight), now, b, routing.decision, routing.kept, routing.after)
    {
      hide Picks;
      b, routing := cands[0], Routing(NoKey, map[], picker.Remembers());
      if c.target.node == "" {
        var decision;
        ghost var kept;
        b, decision, kept := picker.Pick(c.req, cands, Load(inflight), now);
        routing := Routing(decision, kept, picker.Remembers());
      }
    }

    /** Forwards to b, records the attempt once and remembers a failed node. */
    method AttemptOnce(b: Backend, principal: string, env: Env, ghost routing: Routing) returns (result: Result, ghost entry: U.Entry)
      requires Valid()
      modifies this`inflight, this`cooldown, usage.session, usage.lifetime
      ensures Valid()
      ensures usage.session.log == old(usage.session.log) + [entry] && usage.lifetime.log == old(usage.lifetime.log) + [entry]
      ensures forall n :: Get(inflight, n) == Get(old(inflight), n)
      ensures cooldown == if result == Retryable || result == Fatal then old(cooldown)[b.nodeId := env.ended + pause] else old(cooldown)
      ensures result == ResultOf(env.outcome) && Reports(entry, Try(b, env.outcome, env.ended, routing), principal)
    {
      ghost var entries;
      result, entries := Forward(b, principal, env);
      if result != Done {
        if result != ContextTooSmall { MarkDown(b.nodeId, env.ended); }
        if Retries(result) {
          var ev := U.Event(principal, b.nodeId, b.model, U.UpstreamError, 0, 0, 0, 0.0);
          usage.Record(ev, env.ended);
          entries := [U.Entry(ev, env.ended)];
        }
      }
      entry := entries[0];
    }

    /** One attempt of the loop, after the attempts so far: none if there is no
        candidate. */
    method TryNext(c: Call, tried: set<string>, attempt: nat, ghost tries: seq<Try>, ghost was: Was)
      returns (none: bool, result: Result, node: string, ghost t: Try, ghost entry: U.Entry)
      requires Valid() && attempt == |tries| + 1 && tried == TriedBy(tries)
      requires forall n :: Get(inflight, n) == Get(was.inflight, n)
      requires cooldown == Cooldowns(was.cooldown, tries, was.pause) && picker.Remembers() == Remembered(tries, was.memory)
      requires pause == was.pause && picker.Settings() == was.limits
      modifies this`inflight, this`cooldown, picker`rr, picker`keys, usage.session, usage.lifetime
      ensures Valid() && forall n :: Get(inflight, n) == Get(old(inflight), n)
      ensures none ==> result == Retryable && Next(tries, c, was) == [] && cooldown == old(cooldown) && picker.Remembers() == old(picker.Remembers())
                       && usage.session.log == old(usage.session.log) && usage.lifetime.log == old(usage.lifetime.log)
      ensures !none ==>
                && CanFollow(t, tries, c, was) && node == t.backend.nodeId && result == t.Result() && Reports(entry, t, c.principal)
                && usage.session.log == old(usage.session.log) + [entry] && usage.lifetime.log == old(usage.lifetime.log) + [entry]
                && cooldown == Cooldowns(was.cooldown, tries + [t], was.pause) && picker.Remembers() == t.routing.after
    {
      hide Reports, Candidates, Offered, Next, Now, Eligible, Picks, Sent, TriedBy, Cooldowns, AnyNonHot, EventOf, ResultOf, Get, Valid;
      var now := c.env(attempt);
      var all := Eligible(c, now);
      var here := Situation(tried, c.est, inflight, cooldown, now.now);
      var cands := FindCandidates(all, here);
      NextIs(tries, c, was, here);
      none, result, node := true, Retryable, "";
      t, entry := NOTHING_TRIED, NOTHING_RECORDED;
      if cands == [] { return; }
      ghost var routing, load := NOTHING_TRIED.routing, inflight;
      var b;
      b, routing := Choose(c, cands, now.now);
      t := Try(b, now.outcome, now.ended, routing);
      SentIs(t, cands, Remembered(tries, was.memory), c, was, load, now.now);
      CooldownsSnoc(was.cooldown, tries, t, was.pause);
      result, entry := AttemptOnce(b, c.principal, now, routing);
      none, node := false, b.nodeId;
    }

    /** The failover loop: tries candidates until one answers the client, none
        is left or the attempts are used up. The result of an exhausted loop is
        Retryable. */
    method TryNodes(c: Call) returns (result: Result, tried: set<string>, ghost tries: seq<Try>, ghost entries: seq<U.Entry>)
      requires Valid()
      modifies this`inflight, this`cooldown, picker`rr, picker`keys, usage.session, usage.lifetime
      ensures Valid() && tried == TriedBy(tries)
      ensures usage.session.log == old(usage.session.log) + entries && usage.lifetime.log == old(usage.lifetime.log) + entries
      ensures forall n :: Get(inflight, n) == Get(old(inflight), n)
      ensures cooldown == Cooldowns(old(cooldown), tries, pause) && picker.Remembers() == Remembered(tries, old(picker.Remembers()))
      ensures |tries| <= Max(old(State()).Limit(c), 0) && GoodTries(tries, c, old(State()))
      ensures Recorded(tries, entries, c.principal)
      ensures if Retries(result) then result == Retryable && Exhausted(tries, c, old(State())) else AnsweredLast(tries, result)
    {
      hide CanFollow, GoodTry, GoodTries, Recorded, Reports, AnsweredLast, Exhausted, Next, TriedBy, Cooldowns, AllRetried, Get, Valid, ResultOf;
      var was := State();
      tried, tries, entries, result := {}, [], [], Retryable;
      NoTries(c, was);
      var attempt := 1;
      while attempt <= was.Limit(c)
        invariant Valid() && result == Retryable && |tries| == attempt - 1 <= Max(was.Limit(c), 0) && tried == TriedBy(tries)
        invariant usage.session.log == old(usage.session.log) + entries && usage.lifetime.log == old(usage.lifetime.log) + entries
        invariant forall n :: Get(inflight, n) == Get(old(inflight), n)
        invariant cooldown == Cooldowns(was.cooldown, tries, was.pause) && picker.Remembers() == Remembered(tries, was.memory)
        invariant GoodTries(tries, c, was) && Recorded(tries, entries, c.principal) && AllRetried(tries)
      {
        var none, node;
        ghost var t, entry;
        none, result, node, t, entry := TryNext(c, tried, attempt, tries, was);
        if none { break; }
        TriesSnoc(tries, t, c, was);
        RecordedSnoc(tries, entries, t, entry, c.principal);
        tried := tried + {node};
        tries, entries := tries + [t], entries + [entry];
        assert usage.session.log == old(usage.session.log) + entries;
        assert usage.lifetime.log == old(usage.lifetime.log) + entries;
        if !Retries(result) { return; }
        result, attempt := Retryable, attempt + 1;
      }
      ExhaustedHolds(tries, c, was);
    }

    function State(): Was
      reads this, picker
    {
      Was(inflight, cooldown, pause, maxAttempts, picker.Settings(), picker.Remembers())
    }

    /** Refuses the request and counts that against the key alone. */
    method Refuse(reason: Reason, code: int, principal: string, model: string, now: int) returns (reply: Reply, ghost entries: seq<U.Entry>)
      requires Valid()
      modifies usage.session, usage.lifetime
      ensures Valid() && reply == Refused(reason, code)
      ensures usage.session.log == old(usage.session.log) + entries && usage.lifetime.log == old(usage.lifetime.log) + entries
      ensures entries == [U.Entry(U.Event(principal, "", model, U.Status(code), 0, 0, 0, 0.0), now)]
    {
      var ev := U.Event(principal, "", model, U.Status(code), 0, 0, 0, 0.0);
      usage.Record(ev, now);
      reply, entries := Refused(reason, code), [U.Entry(ev, now)];
    }

    /** The checks before any node is tried. */
    method Admission(c: Call) returns (refused: bool, reason: Reason, code: int)
      ensures refused <==> Eligible(c, c.env(0)) == [] || TooLarge(Eligible(c, c.env(0)), c.est)
      ensures refused ==> Refused(reason, code) == Refusal(c)
    {
      hide Eligible;
      var all := Eligible(c, c.env(0));
      if c.target.node != "" && |all| == 0 { return true, NodeUnavailable, 503; }
      if |all| == 0 { return true, ModelNotFound, if c.target.pool || |c.env(0).routable| == 0 then 503 else 404; }
      var max := MaxContext(all);
      if max > 0 && c.est > max { return true, ContextTooLarge, 400; }
      return false, Busy, 0;
    }

    /** serveTarget.  Every request is accounted once, whatever happens to it;
        it is refused exactly for the stated reasons, and the nodes tried are
        candidates of their moment. */
    method Serve(c: Call) returns (reply: Reply, ghost tries: seq<Try>, ghost entries: seq<U.Entry>)
      requires Valid()
      modifies this`inflight, this`cooldown, picker`rr, picker`keys, usage.session, usage.lifetime
      ensures Valid()
      ensures usage.session.log == old(usage.session.log) + entries && usage.lifetime.log == old(usage.lifetime.log) + entries
      ensures forall n :: Get(inflight, n) == Get(old(inflight), n)
      ensures cooldown == Cooldowns(old(cooldown), tries, pause) && picker.Remembers() == Remembered(tries, old(picker.Remembers()))
      ensures Accounted(reply, tries, entries, c.principal)
      ensures |tries| <= Max(if c.target.node != "" then 1 else maxAttempts, 0) && GoodTries(tries, c, old(State()))
      ensures Explained(reply, tries, c, old(State()))
    {
      hide Accounted, Explained, Exhausted, AnsweredLast, Recorded, Eligible, Cooldowns, GoodTries, Get, TriedBy, TooLarge, Valid;
      tries := [];
      NoTries(c, State());
      var refused, reason, code := Admission(c);
      if refused {
        reply, entries := Refuse(reason, code, c.principal, c.model, c.env(0).now);
        RefusalAccounted(reply, entries, c, old(State()));
        return;
      }
      var result, tried;
      result, tried, tries, entries := TryNodes(c);
      if !Retries(result) {
        AnswerAccounted(result, tries, entries, c, old(State()));
        return Answered(result), tries, entries;
      }
      ghost var refusal;
      TriedNone(tries);
      if |tried| == 0 {
        reply, refusal := Refuse(Busy, 503, c.principal, c.model, c.env(|tried|).ended);
      } else {
        reply, refusal := Refuse(BackendsFailed, 502, c.principal, c.model, c.env(|tried|).ended);
      }
      GaveUpAccounted(reply, tries, entries, refusal, c, old(State()));
      entries := entries + refusal;
      assert usage.session.log == old(usage.session.log) + entries;
      assert usage.lifetime.log == old(usage.lifetime.log) + entries;
    }
  }

  function Load(inflight: map<string, int>): string -> int { n => Get(inflight, n) }

  ghost predicate AllRetried(tries: seq<Try>) { forall i :: 0 <= i < |tries| ==> Retries(tries[i].Result()) }

  /** The last attempt answered the client, and only the last one. */
  ghost predicate AnsweredLast(tries: seq<Try>, result: Result)
  {
    && tries != [] && tries[|tries| - 1].Result() == result && !Retries(result)
    && forall i :: 0 <= i < |tries| - 1 ==> Retries(tries[i].Result())
  }

  /** Every attempt failed, and no other could be made. */
  ghost predicate Exhausted(tries: seq<Try>, c: Call, was: Was)
  {
    && AllRetried(tries)
    && (|tries| >= was.Limit(c) || Next(tries, c, was) == [])
  }

  lemma NoTries(c: Call, was: Was)
    ensures TriedBy([]) == {} && Cooldowns(was.cooldown, [], was.pause) == was.cooldown && Recorded([], [], c.principal)
    ensures GoodTries([], c, was) && AllRetried([])
  {
  }

  lemma NextIs(tries: seq<Try>, c: Call, was: Was, s: Situation)
    requires s.tried == TriedBy(tries) && s.est == c.est && s.now == c.env(|tries| + 1).now
    requires s.cooldown == Cooldowns(was.cooldown, tries, was.pause) && forall n :: Get(s.inflight, n) == Get(was.inflight, n)
    ensures Candidates(Eligible(c, c.env(|tries| + 1)), s) == Next(tries, c, was)
  {
    hide Candidates, Get;
    CandidatesSame(Eligible(c, c.env(|tries| + 1)), s, Now(tries, c, was));
  }

  /** The loads of the moment are those when the request arrived. */
  lemma SentIs(t: Try, cands: seq<Backend>, before: Memory, c: Call, was: Was, load: map<string, int>, now: int)
    requires cands != [] && forall n :: Get(load, n) == Get(was.inflight, n)
    requires if c.target.node != "" then t.backend == cands[0] && t.routing.after == before
             else Picks(was.limits, before, c.req, cands, Load(load), now, t.backend, t.routing.decision, t.routing.kept, t.routing.after)
    ensures Sent(t, cands, before, c, was, now)
  {
    hide Picks;
    if c.target.node == "" {
      PicksSame(was.limits, before, c.req, cands, Load(load), Load(was.inflight), now, t.backend, t.routing.decision, t.routing.kept, t.routing.after);
    }
  }

  lemma TriesSnoc(tries: seq<Try>, t: Try, c: Call, was: Was)
    requires GoodTries(tries, c, was) && AllRetried(tries)
    requires CanFollow(t, tries, c, was)
    ensures GoodTries(tries + [t], c, was) && TriedBy(tries + [t]) == TriedBy(tries) + {t.backend.nodeId}
    ensures Cooldowns(was.cooldown, tries + [t], was.pause) ==
            if t.Result() == Retryable || t.Result() == Fatal then Cooldowns(was.cooldown, tries, was.pause)[t.backend.nodeId := t.at + was.pause]
            else Cooldowns(was.cooldown, tries, was.pause)
    ensures if Retries(t.Result()) then AllRetried(tries + [t]) else AnsweredLast(tries + [t], t.Result())
  {
    TriedSnoc(tries, t);
    CooldownsSnoc(was.cooldown, tries, t, was.pause);
    hide Next, TriedBy, Cooldowns, GoodTry, CanFollow;
    var more := tries + [t];
    forall i | 0 <= i < |more| ensures GoodTry(more, i, c, was) { GoodTrySnoc(tries, t, i, c, was); }
  }

  lemma GoodTrySnoc(tries: seq<Try>, t: Try, i: nat, c: Call, was: Was)
    requires i <= |tries| && (i < |tries| ==> GoodTry(tries, i, c, was))
    requires CanFollow(t, tries, c, was)
    ensures GoodTry(tries + [t], i, c, was)
  {
    hide CanFollow;
    var more := tries + [t];
    assert if i < |tries| then more[..i] == tries[..i] else more[..i] == tries;
  }

  lemma CooldownsSnoc(was: map<string, int>, tries: seq<Try>, t: Try, pause: int)
    ensures Cooldowns(was, tries + [t], pause) ==
            if t.Result() == Retryable || t.Result() == Fatal then Cooldowns(was, tries, pause)[t.backend.nodeId := t.at + pause]
            else Cooldowns(was, tries, pause)
  {
    assert (tries + [t])[..|tries|] == tries;
  }

  lemma RecordedSnoc(tries: seq<Try>, entries: seq<U.Entry>, t: Try, e: U.Entry, principal: string)
    requires Recorded(tries, entries, principal) && Reports(e, t, principal)
    ensures Recorded(tries + [t], entries + [e], principal)
  {
  }

  lemma ExhaustedHolds(tries: seq<Try>, c: Call, was: Was)
    requires AllRetried(tries) && (|tries| >= was.Limit(c) || Next(tries, c, was) == [])
    ensures Exhausted(tries, c, was)
  {
  }

  /** The answer to a call that no node is tried for. */
  ghost function Refusal(c: Call): Reply
  {
    if Eligible(c, c.env(0)) != [] then Refused(ContextTooLarge, 400)
    else if c.target.node != "" then Refused(NodeUnavailable, 503)
    else Refused(ModelNotFound, if c.target.pool || c.env(0).routable == [] then 503 else 404)
  }

  /** Why the client got this reply. */
  ghost predicate Explained(reply: Reply, tries: seq<Try>, c: Call, was: Was)
  {
    var all := Eligible(c, c.env(0));
    if all == [] || TooLarge(all, c.est) then tries == [] && reply == Refusal(c)
    else match reply
      case Answered(result) => AnsweredLast(tries, result)
      case Refused(reason, code) =>
        Exhausted(tries, c, was) && reply == if tries == [] then Refused(Busy, 503) else Refused(BackendsFailed, 502)
  }

  /** The node could not serve the request: it was not reached, did not answer
      while the client still waited, answered with a server error, or its context
      was too small. */
  predicate NodeFailed(o: Outcome)
  {
    match o
    case NotSent => true
    case NoResponse(clientGone) => !clientGone
    case Response(status, exceeded, _, _) => status >= 500 || (status == 400 && exceeded)
  }

  /** Failures are never the client's answer: every attempt but the last failed,
      the last one failed exactly when the request is refused with 502, and that
      happens only when no attempt or no candidate is left. */
  lemma FailuresAreRetried(reply: Reply, tries: seq<Try>, c: Call, was: Was)
    requires Explained(reply, tries, c, was) && tries != []
    ensures forall i :: 0 <= i < |tries| - 1 ==> NodeFailed(tries[i].outcome)
    ensures NodeFailed(tries[|tries| - 1].outcome) <==> reply == Refused(BackendsFailed, 502)
    ensures NodeFailed(tries[|tries| - 1].outcome) ==> |tries| >= (if c.target.node != "" then 1 else was.maxAttempts) || Next(tries, c, was) == []
    ensures !NodeFailed(tries[|tries| - 1].outcome) ==> reply == Answered(tries[|tries| - 1].Result())
  {
    hide Eligible, Next;
    assert forall o :: Retries(ResultOf(o)) <==> NodeFailed(o);
    hide ResultOf, NodeFailed, Retries;
    assert forall i :: 0 <= i < |tries| ==> (Retries(tries[i].Result()) <==> NodeFailed(tries[i].outcome));
  }

  /** An attempt may be made on b: it is ready, allowed by the target, for a call
      with tools able to call them if any such backend is, not attempted yet, large
      enough if its context is known, and below its limit. */
  ghost predicate MayTake(b: Backend, tries: seq<Try>, c: Call, was: Was)
  {
    var env := c.env(|tries| + 1);
    && b in env.routable && c.target.allows(b)
    && (c.wantTools && c.target.node == "" && (exists x :: x in env.routable && c.target.allows(x) && env.capable(x.model)) ==> env.capable(b.model))
    && (forall t :: t in tries ==> t.backend.nodeId != b.nodeId)
    && (b.ctxSize > 0 ==> c.est <= b.ctxSize)
    && (b.maxConcurrency > 0 ==> Get(was.inflight, b.nodeId) < b.maxConcurrency)
  }

  /** b failed an earlier request less than a pause ago. */
  ghost predicate IsDown(b: Backend, tries: seq<Try>, c: Call, was: Was)
  {
    b.nodeId in was.cooldown && c.env(|tries| + 1).now < was.cooldown[b.nodeId]
  }

  lemma MayTakeIs(b: Backend, tries: seq<Try>, c: Call, was: Was)
    ensures MayTake(b, tries, c, was) <==> b in Eligible(c, c.env(|tries| + 1)) && Open(b, Now(tries, c, was))
  {
    var env := c.env(|tries| + 1);
    var all := Filter(c.target.allows, env.routable);
    var capable := Filter((b: Backend) => env.capable(b.model), all);
    assert capable != [] ==> capable[0] in capable;
    assert (forall t :: t in tries ==> t.backend.nodeId != b.nodeId) <==> b.nodeId !in TriedBy(tries);
    hide Cooldowns;
  }

  lemma {:induction false} UntriedKeep(was: map<string, int>, tries: seq<Try>, pause: int, n: string)
    requires forall t :: t in tries ==> t.backend.nodeId != n
    ensures n in Cooldowns(was, tries, pause) <==> n in was
    ensures n in was ==> Cooldowns(was, tries, pause)[n] == was[n]
  {
    if tries != [] { UntriedKeep(was, tries[..|tries| - 1], pause, n); }
  }

  /** Every attempt is one that may be made, and goes to a node that is down only
      if every backend that could take it is. */
  lemma AttemptsAreAllowed(tries: seq<Try>, c: Call, was: Was, i: nat)
    requires GoodTries(tries, c, was) && i < |tries|
    ensures MayTake(tries[i].backend, tries[..i], c, was)
    ensures IsDown(tries[i].backend, tries[..i], c, was) ==> forall x :: MayTake(x, tries[..i], c, was) ==> IsDown(x, tries[..i], c, was)
  {
    var before := tries[..i];
    var all, s := Eligible(c, c.env(i + 1)), Now(before, c, was);
    assert GoodTry(tries, i, c, was);
    OfferedAre(all, s);
    forall x ensures MayTake(x, before, c, was) <==> x in all && Open(x, s) { MayTakeIs(x, before, c, was); }
    forall x | MayTake(x, before, c, was) ensures Cooling(x, s) <==> IsDown(x, before, c, was) {
      UntriedKeep(was.cooldown, before, was.pause, x.nodeId);
    }
    hide Cooldowns, Eligible, Open, MayTake, IsDown, Cooling;
  }

  /** The node is to be avoided for a while: it was not reached, did not answer,
      answered with a server error, or broke off its answer.  One whose context
      was too small is not. */
  predicate Broke(o: Outcome)
  {
    match o
    case NotSent => true
    case NoResponse(clientGone) => !clientGone
    case Response(status, exceeded, _, cut) => status >= 500 || (cut && !(status == 400 && exceeded))
  }

  ghost predicate DifferentNodes(tries: seq<Try>)
  {
    forall i, j :: 0 <= i < j < |tries| ==> tries[i].backend.nodeId != tries[j].backend.nodeId
  }

  /** down is was, with the nodes that broke marked for a pause. */
  ghost predicate CooledDown(down: map<string, int>, was: map<string, int>, tries: seq<Try>, pause: int, n: string)
  {
    && (forall t :: t in tries && t.backend.nodeId == n && Broke(t.outcome) ==> n in down && down[n] == t.at + pause)
    && ((forall t :: t in tries && Broke(t.outcome) ==> t.backend.nodeId != n) ==> (n in down <==> n in was) && (n in down ==> down[n] == was[n]))
  }

  lemma {:induction false} BreaksCool(was: map<string, int>, tries: seq<Try>, pause: int, n: string)
    requires DifferentNodes(tries)
    ensures CooledDown(Cooldowns(was, tries, pause), was, tries, pause, n)
  {
    assert forall o :: Broke(o) <==> ResultOf(o) == Retryable || ResultOf(o) == Fatal;
    hide Broke, ResultOf, CooledDown;
    if tries == [] {
      NothingBroke(was, pause, n);
    } else {
      var init, last := tries[..|tries| - 1], tries[|tries| - 1];
      BreaksCool(was, init, pause, n);
      assert tries == init + [last];
      CoolsNext(Cooldowns(was, init, pause), was, init, last, pause, n);
    }
  }

  lemma NothingBroke(was: map<string, int>, pause: int, n: string)
    ensures CooledDown(was, was, [], pause, n)
  {
  }

  lemma CoolsNext(down: map<string, int>, was: map<string, int>, init: seq<Try>, last: Try, pause: int, n: string)
    requires CooledDown(down, was, init, pause, n) && DifferentNodes(init + [last])
    ensures CooledDown(if Broke(last.outcome) then down[last.backend.nodeId := last.at + pause] else down, was, init + [last], pause, n)
  {
    hide Broke;
    assert (init + [last])[|init|] == last;
    assert forall t :: t in init + [last] <==> t in init || t == last;
    forall t | t in init ensures t.backend.nodeId != last.backend.nodeId {
      var i :| 0 <= i < |init| && init[i] == t;
      assert (init + [last])[i] == t;
    }
  }

  /** A request marks down exactly the nodes that broke, each for a pause from the
      end of its attempt. */
  lemma BrokenNodesCoolDown(tries: seq<Try>, c: Call, was: Was, n: string)
    requires GoodTries(tries, c, was)
    ensures CooledDown(Cooldowns(was.cooldown, tries, was.pause), was.cooldown, tries, was.pause, n)
  {
    hide CooledDown, GoodTry;
    forall i, j | 0 <= i < j < |tries| ensures tries[i].backend.nodeId != tries[j].backend.nodeId { NoNodeTwice(tries, c, was, i, j); }
    BreaksCool(was.cooldown, tries, was.pause, n);
  }

  ghost predicate IsRefusal(reply: Reply, entries: seq<U.Entry>, c: Call)
  {
    reply.Refused? && |entries| == 1
    && entries[0].event == U.Event(c.principal, "", c.model, U.Status(reply.code), 0, 0, 0, 0.0)
  }

  lemma RefusalAccounted(reply: Reply, entries: seq<U.Entry>, c: Call, was: Was)
    requires IsRefusal(reply, entries, c)
    requires Eligible(c, c.env(0)) == [] || TooLarge(Eligible(c, c.env(0)), c.est)
    requires reply == Refusal(c)
    ensures Accounted(reply, [], entries, c.principal) && Explained(reply, [], c, was)
  {
  }

  lemma AnswerAccounted(result: Result, tries: seq<Try>, entries: seq<U.Entry>, c: Call, was: Was)
    requires AnsweredLast(tries, result) && Recorded(tries, entries, c.principal)
    requires Eligible(c, c.env(0)) != [] && !TooLarge(Eligible(c, c.env(0)), c.est)
    ensures Accounted(Answered(result), tries, entries, c.principal) && Explained(Answered(result), tries, c, was)
  {
  }

  lemma GaveUpAccounted(reply: Reply, tries: seq<Try>, entries: seq<U.Entry>, refusal: seq<U.Entry>, c: Call, was: Was)
    requires Exhausted(tries, c, was) && Recorded(tries, entries, c.principal)
    requires Eligible(c, c.env(0)) != [] && !TooLarge(Eligible(c, c.env(0)), c.est)
    requires IsRefusal(reply, refusal, c) && reply == if tries == [] then Refused(Busy, 503) else Refused(BackendsFailed, 502)
    ensures Accounted(reply, tries, entries + refusal, c.principal) && Explained(reply, tries, c, was)
  {
    assert (entries + refusal)[..|tries|] == entries;
    hide Recorded, Eligible, TooLarge;
  }

  lemma TriedNone(tries: seq<Try>)
    ensures |TriedBy(tries)| == 0 <==> tries == []
  {
    if tries != [] { assert tries[0].backend.nodeId in TriedBy(tries); }
  }

  /** The context check turns away requests that a node of unknown context could
      have been offered: it passes, with some context known, exactly when one is
      large enough. */
  lemma ContextCheck(all: seq<Backend>, est: int)
    requires exists b :: b in all && b.ctxSize > 0
    ensures !TooLarge(all, est) <==> exists b :: b in all && b.ctxSize >= est
  {
  }

  ghost predicate Known(all: seq<Backend>) { exists b :: b in all && b.ctxSize > 0 }

  /** A node of unknown context that is below its limit: candidates never
      excludes it. */
  ghost predicate OpenUnknown(all: seq<Backend>, inflight: map<string, int>)
  {
    exists b :: b in all && b.ctxSize <= 0 && (b.maxConcurrency > 0 ==> Get(inflight, b.nodeId) < b.maxConcurrency)
  }

  /** A request is refused as too long although a node would be offered if and
      only if some context is known and some open node's is not, and every known
      one is smaller than the estimate. */
  lemma UnknownContextIsRefused(reply: Reply, tries: seq<Try>, c: Call, was: Was)
    requires Explained(reply, tries, c, was)
    ensures var all, s := Eligible(c, c.env(0)), Situation({}, c.est, was.inflight, was.cooldown, c.env(0).now);
            (reply == Refused(ContextTooLarge, 400) && Candidates(all, s) != [])
            <==> Known(all) && OpenUnknown(all, was.inflight) && forall b :: b in all && b.ctxSize > 0 ==> b.ctxSize < c.est
  {
    hide Eligible, Exhausted, AnsweredLast, Candidates, Offered;
    var all, s := Eligible(c, c.env(0)), Situation({}, c.est, was.inflight, was.cooldown, c.env(0).now);
    SomeOffered(all, s);
    if TooLarge(all, c.est) {
      assert forall b :: b in all && b.ctxSize > 0 ==> b.ctxSize < c.est;
    }
  }

  /** Somebody is offered if and only if somebody is open. */
  lemma SomeOffered(all: seq<Backend>, s: Situation)
    ensures Candidates(all, s) != [] <==> exists b :: b in all && Open(b, s)
  {
    OfferedAre(all, s);
    hide Open, Cooling, Candidates;
    var cands := Candidates(all, s);
    assert cands != [] ==> cands[0] in cands;
    if b :| b in all && Open(b, s) {
      if x :| x in all && Open(x, s) && !Cooling(x, s) { assert x in cands; } else { assert b in cands; }
    }
  }

  // ----- one conversation, two requests ------------------------------------------------

  /** Every session was used before the call's attempts, which take place one
      after the other. */
  ghost predicate ClockRuns(c: Call, keys: Sessions)
  {
    && (forall j :: 0 < j ==> AllBefore(keys, c.env(j).now))
    && (forall j, l :: 0 < j < l ==> c.env(j).now < c.env(l).now)
  }

  /** Two requests of one session, one after the other, with no other one of it
      since: if both are sent somewhere, the second one's first attempt hits
      exactly when the session is alive and the node of the first one's last
      attempt is offered and may keep it, and then goes there; among equally
      cool candidates it goes there only then. */
  method ServeTwice(g: Gateway, c: Call, c': Call) returns (ghost tries: seq<Try>, ghost tries': seq<Try>, ghost was': Was)
    requires g.Valid() && c.target.node == "" == c'.target.node && c.req.affinityKey == c'.req.affinityKey != ""
    requires g.picker.maxKeys > 0 && g.picker.spill > 0
    requires ClockRuns(c, g.picker.keys)
    modifies g`inflight, g`cooldown, g.picker`rr, g.picker`keys, g.usage.session, g.usage.lifetime
    ensures g.Valid()
    ensures tries != [] && tries' != [] ==>
              && var node, cands := tries[|tries| - 1].backend.nodeId, Next([], c', was');
                 var alive := c'.env(1).now - c.env(|tries|).now <= g.picker.ttl;
                 var stays := CanStay(cands, node, Load(was'.inflight), g.picker.spill);
                 && (tries'[0].routing.decision == Hit <==> alive && stays)
                 && (alive && stays ==> tries'[0].backend.nodeId == node)
                 && (alive && NonHot(cands) == cands ==> (tries'[0].backend.nodeId == node <==> stays))
  {
    hide Accounted, Explained, GoodTries, Cooldowns, Get, Picks, CanStay, NonHot, Next, ClockRuns, Remembered, Gateway.Valid;
    ghost var was := g.State();
    var reply, reply';
    ghost var entries, entries';
    reply, tries, entries := g.Serve(c);
    was' := g.State();
    reply', tries', entries' := g.Serve(c');
    if tries != [] && tries' != [] { NextAttempt(tries, c, was, tries', c', was'); }
  }

  lemma TryPicks(tries: seq<Try>, c: Call, was: Was, n: nat)
    requires GoodTries(tries, c, was) && c.target.node == "" && n < |tries|
    ensures var t := tries[n];
            Picks(was.limits, Remembered(tries[..n], was.memory), c.req, Next(tries[..n], c, was), Load(was.inflight), c.env(n + 1).now,
                  t.backend, t.routing.decision, t.routing.kept, t.routing.after)
  {
    hide Picks, Next;
    assert GoodTry(tries, n, c, was);
  }

  /** Every session was used before the attempts to come. */
  lemma {:induction false} NoneNewer(tries: seq<Try>, c: Call, was: Was, n: nat, k: nat)
    requires GoodTries(tries, c, was) && c.target.node == "" && n <= |tries| && n < k && ClockRuns(c, was.memory.keys)
    ensures AllBefore(Remembered(tries[..n], was.memory).keys, c.env(k).now)
  {
    hide AllBefore, Picks, Next, GoodTries, GoodTry;
    if n > 0 {
      NoneNewer(tries, c, was, n - 1, n);
      TryPicks(tries, c, was, n - 1);
      assert Remembered(tries[..n], was.memory) == tries[n - 1].routing.after;
      var t := tries[n - 1];
      PickAges(was.limits, Remembered(tries[..n - 1], was.memory), c.req, Next(tries[..n - 1], c, was), Load(was.inflight), c.env(n).now,
               t.backend, t.routing.decision, t.routing.kept, t.routing.after, c.env(k).now);
    }
  }

  lemma RememberedLast(tries: seq<Try>, m: Memory, tries': seq<Try>, m': Memory)
    requires tries != [] && tries' != []
    ensures Remembered(tries, m) == tries[|tries| - 1].routing.after && tries'[..0] == [] && Remembered([], m') == m'
  {
  }

  lemma NextAttempt(tries: seq<Try>, c: Call, was: Was, tries': seq<Try>, c': Call, was': Was)
    requires GoodTries(tries, c, was) && GoodTries(tries', c', was') && tries != [] && tries' != []
    requires c.target.node == "" == c'.target.node && c.req.affinityKey == c'.req.affinityKey != ""
    requires was.limits == was'.limits && was'.memory == Remembered(tries, was.memory) && was.limits.maxKeys > 0 && was.limits.spill > 0
    requires ClockRuns(c, was.memory.keys)
    ensures var node, cands := tries[|tries| - 1].backend.nodeId, Next([], c', was');
            var alive := c'.env(1).now - c.env(|tries|).now <= was.limits.ttl;
            var stays := CanStay(cands, node, Load(was'.inflight), was.limits.spill);
            && (tries'[0].routing.decision == Hit <==> alive && stays)
            && (alive && stays ==> tries'[0].backend.nodeId == node)
            && (alive && NonHot(cands) == cands ==> (tries'[0].backend.nodeId == node <==> stays))
  {
    hide *;
    var n := |tries| - 1;
    TryPicks(tries, c, was, n);
    TryPicks(tries', c', was', 0);
    NoneNewer(tries, c, was, n, n + 1);
    RememberedLast(tries, was.memory, tries', was'.memory);
    var t, t' := tries[n], tries'[0];
    NextPick(was.limits, Remembered(tries[..n], was.memory), c.req, Next(tries[..n], c, was), Load(was.inflight), c.env(n + 1).now,
             t.backend, t.routing.decision, t.routing.kept, t.routing.after,
             c'.req, Next([], c', was'), Load(was'.inflight), c'.env(1).now,
             t'.backend, t'.routing.decision, t'.routing.kept, t'.routing.after);
  }

  // ----- many requests -----------------------------------------------------------------

  ghost function FromKey(p: string): Call -> bool { (c: Call) => c.principal == p }

  ghost function OnNode(n: string): Try -> bool { (t: Try) => t.backend.nodeId == n }

  /** log has one more entry than start for every request of a key and for every
      attempt on a node. */
  ghost predicate Balanced(log: seq<U.Entry>, start: seq<U.Entry>, calls: seq<Call>, tries: seq<Try>)
  {
    && (forall p :: p != "" ==> U.Count(U.ForKey(p), log) == U.Count(U.ForKey(p), start) + |Filter(FromKey(p), calls)|)
    && (forall n :: n != "" ==> U.Count(U.ForNode(n), log) == U.Count(U.ForNode(n), start) + |Filter(OnNode(n), tries)|)
  }

  lemma NothingServed(start: seq<U.Entry>)
    ensures Balanced(start, start, [], [])
  {
  }

  lemma OneMore(log: seq<U.Entry>, start: seq<U.Entry>, calls: seq<Call>, tries: seq<Try>, c: Call, reply: Reply, more: seq<Try>, entries: seq<U.Entry>)
    requires Balanced(log, start, calls, tries) && Accounted(reply, more, entries, c.principal)
    ensures Balanced(log + entries, start, calls + [c], tries + more)
  {
    hide Accounted;
    forall p | p != "" ensures U.Count(U.ForKey(p), log + entries) == U.Count(U.ForKey(p), start) + |Filter(FromKey(p), calls + [c])| {
      KeyGains(log, reply, more, entries, c, p);
      FilterSnoc(FromKey(p), calls, c);
    }
    forall n | n != "" ensures U.Count(U.ForNode(n), log + entries) == U.Count(U.ForNode(n), start) + |Filter(OnNode(n), tries + more)| {
      FilterAppend(U.ForNode(n), log, entries);
      AttemptsCount(reply, more, entries, c.principal, n);
      FilterAppend(OnNode(n), tries, more);
    }
  }

  lemma KeyGains(log: seq<U.Entry>, reply: Reply, tries: seq<Try>, entries: seq<U.Entry>, c: Call, p: string)
    requires Accounted(reply, tries, entries, c.principal) && p != ""
    ensures U.Count(U.ForKey(p), log + entries) == U.Count(U.ForKey(p), log) + (if FromKey(p)(c) then 1 else 0)
  {
    FilterAppend(U.ForKey(p), log, entries);
    AccountedOnce(reply, tries, entries, c.principal);
    U.OneForKey(U.Request(c.principal, entries), p);
  }

  method ServeEach(g: Gateway, calls: seq<Call>) returns (ghost tries: seq<Try>)
    requires g.Valid()
    modifies g`inflight, g`cooldown, g.picker`rr, g.picker`keys, g.usage.session, g.usage.lifetime
    ensures g.Valid() && Balanced(g.usage.session.log, old(g.usage.session.log), calls, tries)
    ensures forall n :: Get(g.inflight, n) == old(Get(g.inflight, n))
  {
    hide Balanced, Accounted, Explained, GoodTries, Cooldowns, Get, Gateway.Valid;
    tries := [];
    ghost var start := g.usage.session.log;
    NothingServed(start);
    for i := 0 to |calls|
      invariant g.Valid() && Balanced(g.usage.session.log, start, calls[..i], tries)
      invariant forall n :: Get(g.inflight, n) == old(Get(g.inflight, n))
    {
      ghost var log := g.usage.session.log;
      var reply;
      ghost var more, entries;
      reply, more, entries := g.Serve(calls[i]);
      OneMore(log, start, calls[..i], tries, calls[i], reply, more, entries);
      assert calls[..i + 1] == calls[..i] + [calls[i]];
      tries := tries + more;
    }
    assert calls[..|calls|] == calls;
  }

  /** Serves any requests one after another: every named key's count grows by its
      requests, every node's by the attempts on it, and no request stays in
      flight. */
  method ServeAll(g: Gateway, calls: seq<Call>) returns (ghost tries: seq<Try>)
    requires g.Valid()
    modifies g`inflight, g`cooldown, g.picker`rr, g.picker`keys, g.usage.session, g.usage.lifetime
    ensures g.Valid()
    ensures forall p :: p != "" ==> g.usage.session.Key(p).requests == old(g.usage.session.Key(p).requests) + |Filter(FromKey(p), calls)|
    ensures forall n :: n != "" ==> g.usage.session.Node(n).requests == old(g.usage.session.Node(n).requests) + |Filter(OnNode(n), tries)|
    ensures forall n :: Get(g.inflight, n) == old(Get(g.inflight, n))
  {
    hide U.Count, Filter, Get;
    LogCounts(g.usage.session);
    tries := ServeEach(g, calls);
    LogCounts(g.usage.session);
  }

  lemma LogCounts(t: U.Totals)
    requires t.Valid()
    ensures forall p :: t.Key(p).requests == U.Count(U.ForKey(p), t.log)
    ensures forall n :: t.Node(n).requests == U.Count(U.ForNode(n), t.log)
  {
    forall p ensures t.Key(p).requests == U.Count(U.ForKey(p), t.log) { U.TallyCounts(U.ForKey(p), t.log); }
    forall n ensures t.Node(n).requests == U.Count(U.ForNode(n), t.log) { U.TallyCounts(U.ForNode(n), t.log); }
  }
}
