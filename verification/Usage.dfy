/** Usage accounting per API key and per node (controller/usage.go). */
module Usage {
  import opened Ordering

  /** A UsageEvent's outcome: an HTTP status, a stream cut off midway, or a
      failed attempt that the gateway may retry. */
  datatype Code = Status(code: int) | Aborted | UpstreamError

  datatype Event = Event(principal: string, nodeId: string, model: string, code: Code,
                         promptTokens: int, cachedTokens: int, completionTokens: int, genTPS: real)

  datatype Entry = Entry(event: Event, at: int)

  datatype Counters = Counters(requests: int, errors: int, promptTokens: int, cachedPromptTokens: int, completionTokens: int,
                               genTokens: int, genSeconds: real, lastUsed: int)

  const ZERO := Counters(0, 0, 0, 0, 0, 0, 0.0, 0)

  predicate Timed(e: Event) { e.genTPS > 0.0 && e.completionTokens > 0 }

  function Add(c: Counters, e: Entry): Counters
  {
    var ev := e.event;
    Counters(c.requests + 1,
             c.errors + (if ev.code == Status(200) then 0 else 1),
             c.promptTokens + ev.promptTokens,
             c.cachedPromptTokens + ev.cachedTokens,
             c.completionTokens + ev.completionTokens,
             c.genTokens + (if Timed(ev) then ev.completionTokens else 0),
             c.genSeconds + (if Timed(ev) then ev.completionTokens as real / ev.genTPS else 0.0),
             e.at)
  }

  /** AvgGenTPS: tokens per second over the time whose speed was reported. */
  function AvgGenTPS(c: Counters): real
  {
    if c.genSeconds > 0.0 then c.genTokens as real / c.genSeconds else 0.0
  }

  // ----- which events count where -----------------------------------------------------

  /** Events that are a request of key p: failed attempts are not. */
  ghost predicate CountsForKey(e: Event, p: string) { e.principal == p && p != "" && e.code != UpstreamError }

  ghost predicate CountsForNode(e: Event, n: string) { e.nodeId == n && n != "" }

  ghost function ForKey(p: string): Entry -> bool { (e: Entry) => CountsForKey(e.event, p) }

  ghost function ForNode(n: string): Entry -> bool { (e: Entry) => CountsForNode(e.event, n) }

  /** Every counted entry of the log, added up in order. */
  ghost function Tally(counted: Entry -> bool, log: seq<Entry>): Counters
  {
    if log == [] then ZERO
    else
      var c := Tally(counted, log[..|log| - 1]);
      var e := log[|log| - 1];
      if counted(e) then Add(c, e) else c
  }

  ghost function Count(counted: Entry -> bool, log: seq<Entry>): nat { |Filter(counted, log)| }

  ghost function Failed(counted: Entry -> bool): Entry -> bool { (e: Entry) => counted(e) && e.event.code != Status(200) }

  /** A key's or node's counters are the number of its events and of its
      failures, and it was last used by its last event. */
  lemma {:induction false} TallyCounts(counted: Entry -> bool, log: seq<Entry>)
    ensures Tally(counted, log).requests == Count(counted, log) && Tally(counted, log).errors == Count(Failed(counted), log)
    ensures Count(counted, log) > 0 ==> Tally(counted, log).lastUsed == Filter(counted, log)[Count(counted, log) - 1].at
  {
    hide Add, Filter;
    if log == [] {
      NoneCounted(counted);
    } else {
      var init, e := log[..|log| - 1], log[|log| - 1];
      TallyCounts(counted, init);
      AddCounts(Tally(counted, init), e);
      assert log == init + [e];
      FilterSnoc(counted, init, e);
      FilterSnoc(Failed(counted), init, e);
    }
  }

  lemma NoneCounted(counted: Entry -> bool)
    ensures Count(counted, []) == Count(Failed(counted), []) == 0
  {
  }

  lemma AddCounts(c: Counters, e: Entry)
    ensures var d := Add(c, e);
            d.requests == c.requests + 1 && d.errors == c.errors + (if e.event.code == Status(200) then 0 else 1) && d.lastUsed == e.at
  {
  }

  ghost function Sum(of: Entry -> int, log: seq<Entry>): int
  {
    if log == [] then 0 else Sum(of, log[..|log| - 1]) + of(log[|log| - 1])
  }

  ghost function PromptOf(): Entry -> int { (e: Entry) => e.event.promptTokens }
  ghost function CachedOf(): Entry -> int { (e: Entry) => e.event.cachedTokens }
  ghost function CompletionOf(): Entry -> int { (e: Entry) => e.event.completionTokens }

  ghost predicate Summed(c: Counters, mine: seq<Entry>)
  {
    c.promptTokens == Sum(PromptOf(), mine) && c.cachedPromptTokens == Sum(CachedOf(), mine) && c.completionTokens == Sum(CompletionOf(), mine)
  }

  /** Token counters are the tokens of the counted events, added up. */
  lemma {:induction false} TallySums(counted: Entry -> bool, log: seq<Entry>)
    ensures Summed(Tally(counted, log), Filter(counted, log))
  {
    hide Filter, Sum, Add, Summed, Tally;
    if log == [] {
      NothingSummed(counted);
    } else {
      var init, e := log[..|log| - 1], log[|log| - 1];
      TallySums(counted, init);
      assert log == init + [e];
      FilterSnoc(counted, init, e);
      SumsSnoc(counted, init, e);
    }
  }

  lemma SumsSnoc(counted: Entry -> bool, init: seq<Entry>, e: Entry)
    requires Summed(Tally(counted, init), Filter(counted, init))
    ensures Summed(Tally(counted, init + [e]), Filter(counted, init) + (if counted(e) then [e] else []))
  {
    assert (init + [e])[..|init|] == init;
    var mine := Filter(counted, init);
    AddTokens(Tally(counted, init), e);
    SumSnoc(PromptOf(), mine, e);
    SumSnoc(CachedOf(), mine, e);
    SumSnoc(CompletionOf(), mine, e);
    hide Filter, Sum, Add;
    assert mine + [] == mine;
  }

  lemma NothingSummed(counted: Entry -> bool)
    ensures Summed(Tally(counted, []), Filter(counted, []))
  {
  }

  lemma SumSnoc(of: Entry -> int, log: seq<Entry>, e: Entry)
    ensures Sum(of, log + [e]) == Sum(of, log) + of(e)
  {
    assert (log + [e])[..|log|] == log;
  }

  lemma AddTokens(c: Counters, e: Entry)
    ensures var d := Add(c, e);
            && d.promptTokens == c.promptTokens + e.event.promptTokens && d.cachedPromptTokens == c.cachedPromptTokens + e.event.cachedTokens
            && d.completionTokens == c.completionTokens + e.event.completionTokens
  {
  }

  /** Speeds of the counted entries all lie between lo and hi. */
  ghost predicate SpeedsWithin(counted: Entry -> bool, log: seq<Entry>, lo: real, hi: real)
  {
    forall e :: e in log && counted(e) && Timed(e.event) ==> lo <= e.event.genTPS <= hi
  }

  ghost predicate Bounded(c: Counters, lo: real, hi: real)
  {
    lo * c.genSeconds <= c.genTokens as real <= hi * c.genSeconds
  }

  /** AvgGenTPS is a weighted mean of the reported speeds: it lies between the
      slowest and the fastest one. */
  lemma AverageIsBetween(counted: Entry -> bool, log: seq<Entry>, lo: real, hi: real)
    requires 0.0 < lo <= hi && SpeedsWithin(counted, log, lo, hi)
    requires exists e :: e in log && counted(e) && Timed(e.event)
    ensures lo <= AvgGenTPS(Tally(counted, log)) <= hi
  {
    TimeBounds(counted, log, lo, hi);
    hide Tally, SpeedsWithin, AvgGenTPS, Bounded;
    AverageOf(Tally(counted, log), lo, hi);
  }

  lemma AverageOf(c: Counters, lo: real, hi: real)
    requires c.genSeconds > 0.0 && Bounded(c, lo, hi)
    ensures lo <= AvgGenTPS(c) <= hi
  {
    Quotient(c.genTokens as real, c.genSeconds, lo, hi);
  }

  lemma {:induction false} TimeBounds(counted: Entry -> bool, log: seq<Entry>, lo: real, hi: real)
    requires 0.0 < lo <= hi && SpeedsWithin(counted, log, lo, hi)
    ensures var c := Tally(counted, log);
            && c.genSeconds >= 0.0 && Bounded(c, lo, hi)
            && ((exists e :: e in log && counted(e) && Timed(e.event)) ==> c.genSeconds > 0.0)
  {
    if log != [] {
      var init, e := log[..|log| - 1], log[|log| - 1];
      TimeBounds(counted, init, lo, hi);
      var c := Tally(counted, init);
      if counted(e) && Timed(e.event) {
        OneTime(e.event.completionTokens as real, e.event.genTPS, lo, hi);
        Distribute(lo, c.genSeconds, e.event.completionTokens as real / e.event.genTPS);
        Distribute(hi, c.genSeconds, e.event.completionTokens as real / e.event.genTPS);
      } else {
        assert forall x :: x in log && counted(x) && Timed(x.event) ==> x in init;
      }
    }
  }

  lemma Distribute(x: real, a: real, b: real)
    ensures x * (a + b) == x * a + x * b
  {
  }

  lemma OneTime(tokens: real, speed: real, lo: real, hi: real)
    requires 0.0 < lo <= speed <= hi && tokens > 0.0
    ensures tokens / speed > 0.0 && lo * (tokens / speed) <= tokens <= hi * (tokens / speed)
  {
    var t := tokens / speed;
    assert t * speed == tokens;
    assert t > 0.0;
    assert lo * t <= speed * t <= hi * t;
  }

  lemma Quotient(tokens: real, seconds: real, lo: real, hi: real)
    requires seconds > 0.0 && lo * seconds <= tokens <= hi * seconds
    ensures lo <= tokens / seconds <= hi
  {
    var q := tokens / seconds;
    assert q * seconds == tokens;
  }

  // ----- the counters -------------------------------------------------------------------

  /** UsageTotals: counters since a point in time; log is everything recorded. */
  class Totals {
    var keys: map<string, Counters>
    var nodes: map<string, Counters>
    ghost var log: seq<Entry>

    ghost predicate Valid()
      reads this
    {
      && (forall p :: Key(p) == Tally(ForKey(p), log))
      && (forall n :: Node(n) == Tally(ForNode(n), log))
    }

    function Key(p: string): Counters
      reads this
    {
      if p in keys then keys[p] else ZERO
    }

    function Node(n: string): Counters
      reads this
    {
      if n in nodes then nodes[n] else ZERO
    }

    constructor ()
      ensures Valid() && log == [] && keys == map[] && nodes == map[]
    {
      keys, nodes, log := map[], map[], [];
    }

    /** Per key once per client request, per node once per attempt. */
    method Record(e: Event, now: int)
      requires Valid()
      modifies this
      ensures Valid() && log == old(log) + [Entry(e, now)]
      ensures keys.Keys == old(keys.Keys) + (if CountsForKey(e, e.principal) then {e.principal} else {})
      ensures nodes.Keys == old(nodes.Keys) + (if CountsForNode(e, e.nodeId) then {e.nodeId} else {})
    {
      hide Add;
      var entry := Entry(e, now);
      log := log + [entry];
      assert log[..|log| - 1] == old(log);
      if e.principal != "" && e.code != UpstreamError {
        keys := keys[e.principal := Add(Key(e.principal), entry)];
      }
      if e.nodeId != "" {
        nodes := nodes[e.nodeId := Add(Node(e.nodeId), entry)];
      }
      forall p ensures Key(p) == Tally(ForKey(p), log) { assert old(Key(p)) == Tally(ForKey(p), old(log)); }
      forall n ensures Node(n) == Tally(ForNode(n), log) { assert old(Node(n)) == Tally(ForNode(n), old(log)); }
    }
  }

  /** Usage since the controller started, and since first use. */
  class Recorder {
    const session: Totals
    const lifetime: Totals

    ghost predicate Valid()
      reads this, session, lifetime
    {
      session != lifetime && session.Valid() && lifetime.Valid()
    }

    constructor (lifetime: Totals)
      requires lifetime.Valid()
      ensures Valid() && this.lifetime == lifetime && fresh(session) && session.log == []
    {
      this.lifetime := lifetime;
      session := new Totals();
    }

    method Record(e: Event, now: int)
      requires Valid()
      modifies session, lifetime
      ensures Valid()
      ensures session.log == old(session.log) + [Entry(e, now)] && lifetime.log == old(lifetime.log) + [Entry(e, now)]
    {
      session.Record(e, now);
      lifetime.Record(e, now);
    }
  }

  // ----- many requests at once -----------------------------------------------------------

  /** What one client request records: exactly one outcome for its key, the
      rest failed attempts. */
  datatype Request = Request(principal: string, entries: seq<Entry>)

  ghost predicate OneOutcome(r: Request)
  {
    && (forall e :: e in r.entries ==> e.event.principal == r.principal)
    && Count(Outcomes(), r.entries) == 1
  }

  ghost function Outcomes(): Entry -> bool { (e: Entry) => e.event.code != UpstreamError }

  /** The entries of request k, when owner says whose each entry is. */
  ghost function Share(log: seq<Entry>, owner: seq<nat>, k: nat): seq<Entry>
    requires |log| == |owner|
  {
    if log == [] then []
    else Share(log[..|log| - 1], owner[..|log| - 1], k) + (if owner[|log| - 1] == k then [log[|log| - 1]] else [])
  }

  /** log interleaves the entries of the requests in any way. */
  ghost predicate Interleaves(log: seq<Entry>, owner: seq<nat>, rs: seq<Request>)
  {
    && |log| == |owner| && (forall i :: 0 <= i < |owner| ==> owner[i] < |rs|)
    && forall k :: 0 <= k < |rs| ==> Share(log, owner, k) == rs[k].entries
  }

  ghost function By(p: string): Request -> bool { (r: Request) => r.principal == p }

  /** Conservation: however the requests' records interleave, a named key's
      request count is the number of requests made with it. */
  lemma RequestsAreConserved(log: seq<Entry>, owner: seq<nat>, rs: seq<Request>, p: string)
    requires Interleaves(log, owner, rs) && p != "" && forall k :: 0 <= k < |rs| ==> OneOutcome(rs[k])
    ensures Tally(ForKey(p), log).requests == |Filter(By(p), rs)|
  {
    hide Tally, OneOutcome;
    TallyCounts(ForKey(p), log);
    SharesAdd(ForKey(p), log, owner, |rs|);
    forall k | 0 <= k < |rs| ensures Count(ForKey(p), Share(log, owner, k)) == if By(p)(rs[k]) then 1 else 0 {
      OneForKey(rs[k], p);
    }
    SumOfOnes(ForKey(p), log, owner, rs, p, |rs|);
    assert rs[..|rs|] == rs;
  }

  /** The counted entries of all requests together. */
  ghost function CountOver(counted: Entry -> bool, rs: seq<Request>): nat
  {
    if rs == [] then 0 else CountOver(counted, rs[..|rs| - 1]) + Count(counted, rs[|rs| - 1].entries)
  }

  /** Conservation per node: however the requests' records interleave, a node's
      request count is the number of attempts on it, added up over the
      requests, and its error count that of the failed ones. */
  lemma AttemptsAreConserved(log: seq<Entry>, owner: seq<nat>, rs: seq<Request>, n: string)
    requires Interleaves(log, owner, rs)
    ensures Tally(ForNode(n), log).requests == CountOver(ForNode(n), rs)
    ensures Tally(ForNode(n), log).errors == CountOver(Failed(ForNode(n)), rs)
  {
    hide Tally, Count, Share;
    TallyCounts(ForNode(n), log);
    SumOfShares(ForNode(n), log, owner, rs, |rs|);
    SumOfShares(Failed(ForNode(n)), log, owner, rs, |rs|);
    SharesAdd(ForNode(n), log, owner, |rs|);
    SharesAdd(Failed(ForNode(n)), log, owner, |rs|);
    assert rs[..|rs|] == rs;
  }

  lemma {:induction false} SumOfShares(counted: Entry -> bool, log: seq<Entry>, owner: seq<nat>, rs: seq<Request>, n: nat)
    requires Interleaves(log, owner, rs) && n <= |rs|
    ensures ShareCounts(counted, log, owner, n) == CountOver(counted, rs[..n])
  {
    hide Count, Share;
    if n > 0 {
      SumOfShares(counted, log, owner, rs, n - 1);
      assert rs[..n][..n - 1] == rs[..n - 1];
    }
  }

  /** Counts of the first n shares, added up. */
  ghost function ShareCounts(counted: Entry -> bool, log: seq<Entry>, owner: seq<nat>, n: nat): nat
    requires |log| == |owner|
  {
    if n == 0 then 0 else ShareCounts(counted, log, owner, n - 1) + Count(counted, Share(log, owner, n - 1))
  }

  lemma {:induction false} SharesAdd(counted: Entry -> bool, log: seq<Entry>, owner: seq<nat>, n: nat)
    requires |log| == |owner| && forall i :: 0 <= i < |owner| ==> owner[i] < n
    ensures Count(counted, log) == ShareCounts(counted, log, owner, n)
  {
    if log == [] {
      NoShares(counted, n);
    } else {
      var m := |log| - 1;
      SharesAdd(counted, log[..m], owner[..m], n);
      ShareStep(counted, log, owner, n);
    }
  }

  lemma {:induction false} NoShares(counted: Entry -> bool, n: nat)
    ensures ShareCounts(counted, [], [], n) == 0
  {
    if n > 0 { NoShares(counted, n - 1); }
  }

  lemma {:induction false} ShareStep(counted: Entry -> bool, log: seq<Entry>, owner: seq<nat>, n: nat)
    requires |log| == |owner| > 0
    ensures var m := |log| - 1;
            ShareCounts(counted, log, owner, n) == ShareCounts(counted, log[..m], owner[..m], n)
                                                   + (if owner[m] < n && counted(log[m]) then 1 else 0)
  {
    hide Filter, Count, Share;
    if n > 0 {
      var m := |log| - 1;
      ShareStep(counted, log, owner, n - 1);
      ShareSnoc(log, owner, n - 1);
      CountSnoc(counted, Share(log[..m], owner[..m], n - 1), log[m]);
    }
  }

  lemma ShareSnoc(log: seq<Entry>, owner: seq<nat>, k: nat)
    requires |log| == |owner| > 0
    ensures var m := |log| - 1;
            Share(log, owner, k) == if owner[m] == k then Share(log[..m], owner[..m], k) + [log[m]] else Share(log[..m], owner[..m], k)
  {
  }

  lemma CountSnoc(counted: Entry -> bool, log: seq<Entry>, e: Entry)
    ensures Count(counted, log + [e]) == Count(counted, log) + (if counted(e) then 1 else 0)
  {
    assert (log + [e])[..|log|] == log;
  }

  lemma OneForKey(r: Request, p: string)
    requires OneOutcome(r) && p != ""
    ensures Count(ForKey(p), r.entries) == if r.principal == p then 1 else 0
  {
    SameCount(ForKey(p), if r.principal == p then Outcomes() else Nothing(), r.entries);
    NothingCounts(r.entries);
  }

  ghost function Nothing(): Entry -> bool { (e: Entry) => false }

  lemma {:induction false} NothingCounts(log: seq<Entry>)
    ensures Count(Nothing(), log) == 0
  {
    if log != [] { NothingCounts(log[..|log| - 1]); }
  }

  lemma {:induction false} SameCount(f: Entry -> bool, g: Entry -> bool, log: seq<Entry>)
    requires forall e :: e in log ==> f(e) == g(e)
    ensures Count(f, log) == Count(g, log)
  {
    if log != [] { SameCount(f, g, log[..|log| - 1]); }
  }

  lemma NoneOf(f: Request -> bool)
    ensures |Filter(f, [])| == 0
  {
  }

  lemma {:induction false} SumOfOnes(counted: Entry -> bool, log: seq<Entry>, owner: seq<nat>, rs: seq<Request>, p: string, n: nat)
    requires |log| == |owner| && n <= |rs|
    requires forall k :: 0 <= k < |rs| ==> Count(counted, Share(log, owner, k)) == if By(p)(rs[k]) then 1 else 0
    ensures ShareCounts(counted, log, owner, n) == |Filter(By(p), rs[..n])|
  {
    hide Filter, Count, Share;
    if n == 0 { NoneOf(By(p)); }
    if n > 0 {
      SumOfOnes(counted, log, owner, rs, p, n - 1);
      FilterStep(By(p), rs, n - 1);
      assert Count(counted, Share(log, owner, n - 1)) == if By(p)(rs[n - 1]) then 1 else 0;
    }
  }
}
