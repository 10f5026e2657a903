/** Session-affinity routing (controller/gateway/picker.go). */
module Picker {
  import opened Ordering

  datatype Backend = Backend(nodeId: string, model: string, speed: real, hot: bool, ctxSize: int, maxConcurrency: int)

  datatype Request = Request(affinityKey: string, promptBytes: int)

  /** A session's pin; last is when it was last used. */
  datatype Session = Session(node: string, last: int, large: bool)

  type Sessions = map<string, Session>

  datatype Decision = Hit | Miss | Spill | NoKey

  // ----- choosing among candidates ------------------------------------------------

  predicate IsCool(b: Backend) { !b.hot }

  /** The candidates that are not overheating, or all of them if every one is. */
  function NonHot(c: seq<Backend>): (r: seq<Backend>)
    ensures c != [] ==> r != []
    ensures forall b :: b in r <==> b in c && (b.hot ==> !AnyNonHot(c))
  {
    var cool := Filter(IsCool, c);
    assert forall b :: b in c && IsCool(b) ==> b in cool;
    assert cool != [] ==> cool[0] in cool;
    if cool == [] then c else cool
  }

  predicate AnyNonHot(c: seq<Backend>)
  {
    exists b :: b in c && !b.hot
  }

  /** Smaller (primary, secondary) score first, then higher speed. */
  predicate Better(p: int, s: int, speed: real, p': int, s': int, speed': real)
  {
    p < p' || (p == p' && s < s') || (p == p' && s == s' && speed > speed')
  }

  /** b is a lexicographic minimum of (primary, secondary), then highest speed. */
  ghost predicate Best(b: Backend, c: seq<Backend>, primary: string -> int, secondary: string -> int)
  {
    b in c && forall x :: x in c ==> !BetterThan(x, b, primary, secondary)
  }

  /** In words: no candidate has a smaller first score, or an equal one and a
      smaller second, or equal ones and more speed. */
  lemma BestIsLeast(b: Backend, c: seq<Backend>, primary: string -> int, secondary: string -> int)
    ensures Best(b, c, primary, secondary) <==>
              && b in c && (forall x :: x in c ==> primary(b.nodeId) <= primary(x.nodeId))
              && (forall x :: x in c && primary(x.nodeId) == primary(b.nodeId) ==> secondary(b.nodeId) <= secondary(x.nodeId))
              && (forall x :: x in c && primary(x.nodeId) == primary(b.nodeId) && secondary(x.nodeId) == secondary(b.nodeId) ==> x.speed <= b.speed)
  {
  }

  lemma Wrap(start: nat, i: nat, n: nat)
    requires start < n && i < n
    ensures (start + i) % n == if start + i < n then start + i else start + i - n
  {
    if start + i >= n { assert (start + i) % n == (start + i - n) % n; }
  }

  /** The candidates in the order of a scan from start. */
  ghost function Rotated(c: seq<Backend>, start: nat): seq<Backend>
    requires start <= |c|
  {
    c[start..] + c[..start]
  }

  ghost predicate BetterThan(b: Backend, x: Backend, primary: string -> int, secondary: string -> int)
  {
    Better(primary(b.nodeId), secondary(b.nodeId), b.speed, primary(x.nodeId), secondary(x.nodeId), x.speed)
  }

  /** b is strictly better than every candidate scanned before it. */
  ghost predicate FirstBest(b: Backend, r: seq<Backend>, primary: string -> int, secondary: string -> int)
  {
    exists i :: 0 <= i < |r| && r[i] == b && forall k :: 0 <= k < i ==> BetterThan(b, r[k], primary, secondary)
  }

  /** The first of the best candidates, scanning from start. */
  method LeastBy(c: seq<Backend>, start: nat, primary: string -> int, secondary: string -> int) returns (best: Backend)
    requires start < |c|
    ensures Best(best, c, primary, secondary) && FirstBest(best, Rotated(c, start), primary, secondary)
  {
    ghost var r := Rotated(c, start);
    best := c[start];
    var bp, bs := primary(best.nodeId), secondary(best.nodeId);
    var i := 1;
    ghost var at := 0;
    while i < |c|
      invariant 1 <= i <= |c| && bp == primary(best.nodeId) && bs == secondary(best.nodeId)
      invariant at < i && r[at] == best && forall k :: 0 <= k < at ==> BetterThan(best, r[k], primary, secondary)
      invariant forall k :: 0 <= k < i ==> !BetterThan(r[k], best, primary, secondary)
    {
      Wrap(start, i, |c|);
      var b := c[(start + i) % |c|];
      assert b == r[i];
      var p, s := primary(b.nodeId), secondary(b.nodeId);
      if p < bp || (p == bp && s < bs) || (p == bp && s == bs && b.speed > best.speed) {
        best, bp, bs, at := b, p, s, i;
      }
      i := i + 1;
    }
    assert c == c[..start] + c[start..];
    assert forall x :: x in c <==> x in r;
  }

  /** Equals take turns: when no candidate is better than another, the scan
      returns the one it starts from. */
  lemma EqualsTakeTurns(b: Backend, c: seq<Backend>, start: nat, primary: string -> int, secondary: string -> int)
    requires start < |c| && FirstBest(b, Rotated(c, start), primary, secondary)
    requires forall x, y :: x in c && y in c ==> !BetterThan(x, y, primary, secondary)
    ensures b == c[start]
  {
    var r := Rotated(c, start);
    var i :| 0 <= i < |r| && r[i] == b && forall k :: 0 <= k < i ==> BetterThan(b, r[k], primary, secondary);
    assert r[0] == c[start] && r[i] in c && r[0] in c;
  }

  function NoScore(): string -> int { _ => 0 }

  /** LeastInflight: the least busy coolest candidate, fastest first; the
      rotating start lets idle equals take turns. */
  class LeastInflight {
    var rr: nat

    method Pick(c: seq<Backend>, inflight: string -> int) returns (b: Backend)
      requires c != []
      modifies this
      ensures Best(b, NonHot(c), inflight, NoScore()) && rr == old(rr) + 1
      ensures FirstBest(b, Rotated(NonHot(c), rr % |NonHot(c)|), inflight, NoScore())
    {
      var cands := NonHot(c);
      rr := rr + 1;
      b := LeastBy(cands, rr % |cands|, inflight, NoScore());
    }
  }

  // ----- counting sessions -----------------------------------------------------------

  ghost function LargeOn(keys: Sessions, node: string): set<string>
  {
    set k | k in keys && keys[k].large && keys[k].node == node
  }

  ghost function On(keys: Sessions, node: string): set<string>
  {
    set k | k in keys && keys[k].node == node
  }

  function Tally(m: map<string, int>, node: string): int { if node in m then m[node] else 0 }

  lemma LargeOnNext(keys: Sessions, k: string, p: Session, n: string)
    requires k !in keys
    ensures |LargeOn(keys[k := p], n)| == |LargeOn(keys, n)| + (if p.large && p.node == n then 1 else 0)
  {
    assert LargeOn(keys[k := p], n) == LargeOn(keys, n) + (if p.large && p.node == n then {k} else {});
  }

  lemma OnNext(keys: Sessions, k: string, p: Session, n: string)
    requires k !in keys
    ensures |On(keys[k := p], n)| == |On(keys, n)| + (if p.node == n then 1 else 0)
  {
    assert On(keys[k := p], n) == On(keys, n) + (if p.node == n then {k} else {});
  }

  /** For every node, how many large sessions are pinned to it. */
  method CountLarge(keys: Sessions) returns (sessions: map<string, int>)
    ensures forall n :: Tally(sessions, n) == |LargeOn(keys, n)|
  {
    sessions := map[];
    var left := keys.Keys;
    ghost var done: Sessions := map[];
    while left != {}
      invariant left <= keys.Keys && done.Keys == keys.Keys - left && forall k :: k in done ==> done[k] == keys[k]
      invariant forall n :: Tally(sessions, n) == |LargeOn(done, n)|
      decreases |left|
    {
      var k :| k in left;
      var p := keys[k];
      ghost var next, before := done[k := p], sessions;
      if p.large { sessions := sessions[p.node := Tally(sessions, p.node) + 1]; }
      forall n ensures Tally(sessions, n) == |LargeOn(next, n)| {
        LargeOnNext(done, k, p, n);
        assert Tally(before, n) == |LargeOn(done, n)|;
      }
      left, done := left - {k}, next;
    }
    assert done == keys;
  }

  /** For every node, how many sessions are pinned to it. */
  method CountAll(keys: Sessions) returns (out: map<string, int>)
    ensures forall n :: Tally(out, n) == |On(keys, n)|
  {
    out := map[];
    var left := keys.Keys;
    ghost var done: Sessions := map[];
    while left != {}
      invariant left <= keys.Keys && done.Keys == keys.Keys - left && forall k :: k in done ==> done[k] == keys[k]
      invariant forall n :: Tally(out, n) == |On(done, n)|
      decreases |left|
    {
      var k :| k in left;
      var p := keys[k];
      ghost var next, before := done[k := p], out;
      out := out[p.node := Tally(out, p.node) + 1];
      forall n ensures Tally(out, n) == |On(next, n)| {
        OnNext(done, k, p, n);
        assert Tally(before, n) == |On(done, n)|;
      }
      left, done := left - {k}, next;
    }
    assert done == keys;
  }

  /** The large sessions of every key but this one. */
  method Without(keys: Sessions, sessions0: map<string, int>, key: string) returns (sessions: map<string, int>)
    requires key in keys && forall n :: Tally(sessions0, n) == |LargeOn(keys, n)|
    ensures forall n :: Tally(sessions, n) == |LargeOn(keys - {key}, n)|
  {
    var p := keys[key];
    sessions := sessions0;
    if p.large { sessions := sessions[p.node := Tally(sessions, p.node) - 1]; }
    assert (keys - {key})[key := p] == keys;
    forall n ensures Tally(sessions, n) == |LargeOn(keys - {key}, n)| {
      LargeOnNext(keys - {key}, key, p, n);
      assert Tally(sessions0, n) == |LargeOn(keys, n)|;
    }
  }

  /** keys without the sessions of node, and how many those were. */
  method DropNode(keys: Sessions, node: string) returns (kept: Sessions, n: int)
    ensures kept == keys - On(keys, node) && n == |On(keys, node)|
  {
    kept, n := keys, 0;
    var left := keys.Keys;
    ghost var gone: set<string> := {};
    while left != {}
      invariant left <= keys.Keys && gone <= keys.Keys - left
      invariant forall k :: k in keys && k !in left ==> (k in gone <==> keys[k].node == node)
      invariant kept == keys - gone && n == |gone|
      decreases |left|
    {
      var k :| k in left;
      if keys[k].node == node { kept, n, gone := kept - {k}, n + 1, gone + {k}; }
      left := left - {k};
    }
    assert gone == On(keys, node);
  }

  // ----- pruning -----------------------------------------------------------------------

  /** kept is fresh after expiry and the size cap: nothing expired, at most max
      keys, and every dropped unexpired key at least as old as every kept one. */
  ghost predicate Pruned(kept: Sessions, keys: Sessions, now: int, ttl: int, max: nat)
  {
    && kept.Keys <= keys.Keys && (forall k :: k in kept ==> kept[k] == keys[k])
    && (forall k :: k in kept ==> now - keys[k].last <= ttl)
    && |kept| <= max
    && (forall k, q :: k in keys && k !in kept && now - keys[k].last <= ttl && q in kept ==> keys[k].last <= keys[q].last)
    && ((exists k :: k in keys && k !in kept && now - keys[k].last <= ttl) ==> |kept| == max)
  }

  /** The oldest of alive are gone, if more than max were alive. */
  ghost predicate OldestDropped(keys: Sessions, alive: Sessions, max: nat)
  {
    && keys.Keys <= alive.Keys && (forall k :: k in keys ==> keys[k] == alive[k])
    && (forall k, q :: k in alive && k !in keys && q in keys ==> alive[k].last <= alive[q].last)
    && (keys.Keys != alive.Keys ==> |keys| >= max)
  }

  lemma DropOldest(keys: Sessions, alive: Sessions, oldest: string, max: nat)
    requires OldestDropped(keys, alive, max) && |keys| > max && oldest in keys && forall k :: k in keys ==> keys[oldest].last <= keys[k].last
    ensures OldestDropped(keys - {oldest}, alive, max) && |keys - {oldest}| < |keys|
  {
    assert (keys - {oldest}).Keys == keys.Keys - {oldest};
  }

  lemma PrunedIs(kept: Sessions, alive: Sessions, keys: Sessions, now: int, ttl: int, max: nat)
    requires OldestDropped(kept, alive, max) && |kept| <= max
    requires alive == map k | k in keys && now - keys[k].last <= ttl :: keys[k]
    ensures Pruned(kept, keys, now, ttl, max)
  {
    if k :| k in keys && k !in kept && now - keys[k].last <= ttl { assert k in alive && k !in kept.Keys; }
  }

  /** A session may stay on node: it is offered, not hot while a cooler one is,
      and fewer than spill requests above every candidate. */
  ghost predicate MayStay(b: Backend, c: seq<Backend>, node: string, inflight: string -> int, spill: int)
  {
    && b in c && b.nodeId == node && !(b.hot && AnyNonHot(c))
    && forall x :: x in c ==> inflight(b.nodeId) - inflight(x.nodeId) < spill
  }

  /** b is the least busy of the coolest candidates, then the one with the
      fewest large sessions among others, then the fastest. */
  ghost predicate BestFor(b: Backend, c: seq<Backend>, inflight: string -> int, others: Sessions)
  {
    b in NonHot(c) && forall x :: x in NonHot(c) ==>
      !Better(inflight(x.nodeId), |LargeOn(others, x.nodeId)|, x.speed, inflight(b.nodeId), |LargeOn(others, b.nodeId)|, b.speed)
  }

  /** What happens to a request of this key: no session, a new one, a session
      that keeps its node, or one that has to move. */
  ghost function Routed(key: string, keys: Sessions, c: seq<Backend>, inflight: string -> int, spill: int): (r: Decision)
    ensures r == Hit ==> key in keys
    ensures r == NoKey <==> key == ""  && key !in keys
  {
    if key !in keys then (if key == "" then NoKey else Miss)
    else if exists x :: MayStay(x, c, keys[key].node, inflight, spill) then Hit
    else Decision.Spill
  }

  /** Settings of an affinity picker, and what it remembers. */
  datatype Limits = Limits(ttl: int, maxKeys: nat, spill: int, largePrompt: int)

  datatype Memory = Memory(keys: Sessions, rr: nat)

  ghost function Crowd(others: Sessions): string -> int { (n: string) => |LargeOn(others, n)| }

  /** b is the first candidate that the session may stay on. */
  ghost predicate FirstStay(b: Backend, c: seq<Backend>, node: string, inflight: string -> int, spill: int)
  {
    exists i :: 0 <= i < |c| && c[i] == b && MayStay(b, c, node, inflight, spill) && forall k :: 0 <= k < i ==> !MayStay(c[k], c, node, inflight, spill)
  }

  /** What Pick does: it forgets old sessions, keeps a session on its node if it
      may stay, takes the best candidate otherwise (equals in turn), and pins the
      session to it. */
  ghost predicate Picks(l: Limits, before: Memory, req: Request, c: seq<Backend>, inflight: string -> int, now: int,
                        b: Backend, result: Decision, kept: Sessions, after: Memory)
  {
    var key := req.affinityKey;
    && c != [] && Pruned(kept, before.keys, now, l.ttl, l.maxKeys)
    && result == Routed(key, kept, c, inflight, l.spill)
    && (if result == Hit then FirstStay(b, c, kept[key].node, inflight, l.spill) && after.rr == before.rr
        else && after.rr == before.rr + 1 && BestFor(b, c, inflight, kept - {key})
             && FirstBest(b, Rotated(NonHot(c), after.rr % |NonHot(c)|), inflight, Crowd(kept - {key})))
    && after.keys == if result == NoKey then kept
                     else if result == Hit then kept[key := kept[key].(last := now)]
                     else kept[key := Session(b.nodeId, now, req.promptBytes >= l.largePrompt)]
  }

  class Affinity {
    var ttl: int
    var maxKeys: nat
    var spill: int
    var largePrompt: int
    var rr: nat
    var keys: Sessions

    ghost predicate Valid()
      reads this
    {
      "" !in keys && |keys| <= maxKeys + 1
    }

    function Settings(): Limits
      reads this
    {
      Limits(ttl, maxKeys, spill, largePrompt)
    }

    function Remembers(): Memory
      reads this
    {
      Memory(keys, rr)
    }

    constructor ()
      ensures Valid() && ttl == 1800 && maxKeys == 4096 && spill == 2 && largePrompt == 16384 && keys == map[]
    {
      ttl, maxKeys, spill, largePrompt, rr, keys := 1800, 4096, 2, 16384, 0, map[];
    }

    method Oldest() returns (oldest: string)
      requires keys != map[]
      ensures oldest in keys && forall k :: k in keys ==> keys[oldest].last <= keys[k].last
    {
      var left := keys.Keys;
      oldest :| oldest in left;
      left := left - {oldest};
      while left != {}
        invariant left <= keys.Keys && oldest in keys
        invariant forall k :: k in keys && k !in left ==> keys[oldest].last <= keys[k].last
        decreases |left|
      {
        var k :| k in left;
        if keys[k].last < keys[oldest].last { oldest := k; }
        left := left - {k};
      }
    }

    /** Drops expired keys, then the oldest ones beyond maxKeys. */
    method Prune(now: int)
      modifies this`keys
      ensures Pruned(keys, old(keys), now, ttl, maxKeys)
    {
      hide Pruned;
      keys := map k | k in keys && now - keys[k].last <= ttl :: keys[k];
      ghost var alive := keys;
      while |keys| > maxKeys
        invariant OldestDropped(keys, alive, maxKeys)
        decreases |keys|
      {
        var oldest := Oldest();
        DropOldest(keys, alive, oldest, maxKeys);
        keys := keys - {oldest};
      }
      PrunedIs(keys, alive, old(keys), now, ttl, maxKeys);
    }

    /** Routes a request that has no usable pin; sessions counts the large
        sessions of other keys. */
    method Fresh(c: seq<Backend>, inflight: string -> int, sessions: map<string, int>, ghost others: Sessions) returns (b: Backend)
      requires c != [] && forall n :: Tally(sessions, n) == |LargeOn(others, n)|
      modifies this`rr
      ensures BestFor(b, c, inflight, others) && rr == old(rr) + 1
      ensures FirstBest(b, Rotated(NonHot(c), rr % |NonHot(c)|), inflight, Crowd(others))
    {
      hide LargeOn;
      var cands := NonHot(c);
      rr := rr + 1;
      b := LeastBy(cands, rr % |cands|, inflight, n => Tally(sessions, n));
    }

    method MinInflight(c: seq<Backend>, inflight: string -> int) returns (m: int)
      requires c != []
      ensures (exists b :: b in c && inflight(b.nodeId) == m) && forall b :: b in c ==> m <= inflight(b.nodeId)
    {
      m := inflight(c[0].nodeId);
      assert c[0] in c;
      for i := 1 to |c|
        invariant exists b :: b in c && inflight(b.nodeId) == m
        invariant forall k :: 0 <= k < i ==> m <= inflight(c[k].nodeId)
      {
        assert c[i] in c;
        m := Min(m, inflight(c[i].nodeId));
      }
    }

    /** Looks for the pinned node among the candidates that may keep it. */
    method FindPinned(c: seq<Backend>, node: string, inflight: string -> int) returns (found: bool, b: Backend)
      requires c != []
      ensures found ==> FirstStay(b, c, node, inflight, spill)
      ensures !found ==> forall x :: !MayStay(x, c, node, inflight, spill)
    {
      var least := MinInflight(c, inflight);
      var coolerExists := AnyNonHot(c);
      for i := 0 to |c|
        invariant forall k :: 0 <= k < i ==> !MayStay(c[k], c, node, inflight, spill)
      {
        assert c[i] in c;
        if c[i].nodeId == node && !(c[i].hot && coolerExists) && inflight(c[i].nodeId) - least < spill {
          return true, c[i];
        }
      }
      return false, c[0];
    }

    /** The decision: a session stays on its node exactly when it may; otherwise
        the request goes to the best candidate. */
    method Route(key: string, c: seq<Backend>, inflight: string -> int) returns (b: Backend, result: Decision)
      requires c != [] && "" !in keys
      modifies this`rr
      ensures b in c && !(b.hot && AnyNonHot(c))
      ensures result == Routed(key, keys, c, inflight, spill)
      ensures if result == Hit then FirstStay(b, c, keys[key].node, inflight, spill) && rr == old(rr)
              else BestFor(b, c, inflight, keys - {key}) && rr == old(rr) + 1
                   && FirstBest(b, Rotated(NonHot(c), rr % |NonHot(c)|), inflight, Crowd(keys - {key}))
    {
      hide MayStay, LargeOn, BestFor, AnyNonHot, FirstBest;
      var sessions := CountLarge(keys);
      result := if key == "" then NoKey else Miss;
      if key in keys {
        result := Spill;
        var found, pinned := FindPinned(c, keys[key].node, inflight);
        if found {
          FirstStayMeans(pinned, c, keys[key].node, inflight, spill);
          return pinned, Hit;
        }
        sessions := Without(keys, sessions, key);
      } else {
        AbsentKey(keys, key);
      }
      b := Fresh(c, inflight, sessions, keys - {key});
      BestIsCool(b, c, inflight, keys - {key});
    }

    /** Pick.  Prunes, routes, and pins the session to where it was routed (a hit
        only refreshes it). A hot node is never picked while a cooler one is
        offered. */
    method Pick(req: Request, c: seq<Backend>, inflight: string -> int, now: int) returns (b: Backend, result: Decision, ghost kept: Sessions)
      requires Valid() && c != []
      modifies this`rr, this`keys
      ensures Valid() && Picks(Settings(), old(Remembers()), req, c, inflight, now, b, result, kept, Remembers())
      ensures b in c && !(b.hot && AnyNonHot(c))
    {
      hide FirstStay, BestFor, Pruned, AnyNonHot, FirstBest, Rotated;
      Prune(now);
      kept := keys;
      KeptIsSmall(kept, old(keys), now, ttl, maxKeys);
      var key := req.affinityKey;
      b, result := Route(key, c, inflight);
      if result == NoKey { return; }
      var p := if result == Hit then keys[key].(last := now) else Session(b.nodeId, now, req.promptBytes >= largePrompt);
      UpdateSize(keys, key, p);
      keys := keys[key := p];
    }

    /** The number of live sessions pinned to each node. */
    method Pins(now: int) returns (out: map<string, int>)
      requires Valid()
      modifies this`keys
      ensures Valid() && Pruned(keys, old(keys), now, ttl, maxKeys)
      ensures forall n :: Tally(out, n) == |On(keys, n)|
    {
      Prune(now);
      out := CountAll(keys);
    }

    /** Forgets exactly the sessions pinned to nodeId and says how many. */
    method Unpin(nodeId: string) returns (n: int)
      requires Valid()
      modifies this`keys
      ensures Valid() && n == |On(old(keys), nodeId)|
      ensures keys == old(keys) - On(old(keys), nodeId)
    {
      KeysShrink(keys, On(keys, nodeId));
      keys, n := DropNode(keys, nodeId);
    }
  }

  /** Pruning leaves no choice: when no two sessions were last used at the same
      time, the rules of Pruned have one outcome. */
  lemma PrunedIsUnique(a: Sessions, b: Sessions, keys: Sessions, now: int, ttl: int, max: nat)
    requires Pruned(a, keys, now, ttl, max) && Pruned(b, keys, now, ttl, max)
    requires forall k, q :: k in keys && q in keys && keys[k].last == keys[q].last ==> k == q
    ensures a == b
  {
    forall k | k in a ensures k in b { KeptByBoth(a, b, keys, now, ttl, max, k); }
    forall k | k in b ensures k in a { KeptByBoth(b, a, keys, now, ttl, max, k); }
  }

  lemma KeptByBoth(a: Sessions, b: Sessions, keys: Sessions, now: int, ttl: int, max: nat, k: string)
    requires Pruned(a, keys, now, ttl, max) && Pruned(b, keys, now, ttl, max)
    requires forall k, q :: k in keys && q in keys && keys[k].last == keys[q].last ==> k == q
    requires k in a
    ensures k in b
  {
    if k !in b && b.Keys <= a.Keys {
      SubsetSize(b.Keys, a.Keys - {k});
    }
  }

  /** A conversation keeps its phone: the next request of the most recently used
      session is a hit exactly when the pin is alive and the node may keep it. */
  lemma SessionSticks(keys: Sessions, kept: Sessions, key: string, c: seq<Backend>, inflight: string -> int,
                      now: int, ttl: int, max: nat, spill: int)
    requires key in keys && forall q :: q in keys && q != key ==> keys[q].last < keys[key].last
    requires Pruned(kept, keys, now, ttl, max) && max > 0
    ensures Routed(key, kept, c, inflight, spill) == Hit
            <==> now - keys[key].last <= ttl && exists x :: MayStay(x, c, keys[key].node, inflight, spill)
  {
    if kept.Keys != {} {
      var q :| q in kept.Keys;
      assert q in keys;
    }
  }

  lemma AbsentKey(keys: Sessions, key: string)
    ensures key !in keys ==> keys - {key} == keys
  {
  }

  lemma KeysShrink(keys: Sessions, s: set<string>)
    ensures |keys - s| <= |keys|
  {
    assert (keys - s).Keys <= keys.Keys;
    SubsetSize((keys - s).Keys, keys.Keys);
  }

  lemma BestIsCool(b: Backend, c: seq<Backend>, inflight: string -> int, others: Sessions)
    requires BestFor(b, c, inflight, others)
    ensures b in c && !(b.hot && AnyNonHot(c))
  {
  }

  lemma KeptIsSmall(kept: Sessions, keys: Sessions, now: int, ttl: int, max: nat)
    requires Pruned(kept, keys, now, ttl, max)
    ensures |kept| <= max && ("" !in keys ==> "" !in kept)
  {
  }

  lemma UpdateSize(keys: Sessions, key: string, p: Session)
    ensures |keys[key := p]| <= |keys| + 1 && (key in keys ==> |keys[key := p]| == |keys|)
  {
    assert keys[key := p].Keys == keys.Keys + {key};
  }

  lemma FirstStayMeans(b: Backend, c: seq<Backend>, node: string, inflight: string -> int, spill: int)
    requires FirstStay(b, c, node, inflight, spill)
    ensures MayStay(b, c, node, inflight, spill) && b in c && !(b.hot && AnyNonHot(c))
  {
  }

  // ----- the same loads, the same pick ---------------------------------------------------

  /** Pick only reads the loads, so equal loads allow the same picks. */
  lemma PicksSame(l: Limits, before: Memory, req: Request, c: seq<Backend>, f: string -> int, g: string -> int, now: int,
                  b: Backend, result: Decision, kept: Sessions, after: Memory)
    requires Picks(l, before, req, c, f, now, b, result, kept, after) && forall n :: f(n) == g(n)
    ensures Picks(l, before, req, c, g, now, b, result, kept, after)
  {
    assert forall x, n :: MayStay(x, c, n, f, l.spill) == MayStay(x, c, n, g, l.spill);
    hide MayStay, Pruned;
    var others := kept - {req.affinityKey};
    assert BestFor(b, c, f, others) == BestFor(b, c, g, others);
    hide BestFor;
    if result != Hit { FirstBestSame(b, Rotated(NonHot(c), after.rr % |NonHot(c)|), f, g, Crowd(others)); }
  }

  lemma FirstBestSame(b: Backend, r: seq<Backend>, f: string -> int, g: string -> int, s: string -> int)
    requires FirstBest(b, r, f, s) && forall n :: f(n) == g(n)
    ensures FirstBest(b, r, g, s)
  {
    var i :| 0 <= i < |r| && r[i] == b && forall k :: 0 <= k < i ==> BetterThan(b, r[k], f, s);
    assert forall k :: 0 <= k < i ==> BetterThan(b, r[k], g, s);
  }

  ghost predicate CanStay(c: seq<Backend>, node: string, inflight: string -> int, spill: int)
  {
    exists x :: MayStay(x, c, node, inflight, spill)
  }

  /** Every session was last used before now. */
  ghost predicate AllBefore(keys: Sessions, now: int) { forall q :: q in keys ==> keys[q].last < now }

  /** A pick makes no session newer than it. */
  lemma PickAges(l: Limits, before: Memory, req: Request, c: seq<Backend>, f: string -> int, now: int,
                 b: Backend, r: Decision, kept: Sessions, after: Memory, later: int)
    requires Picks(l, before, req, c, f, now, b, r, kept, after) && AllBefore(before.keys, now) && now < later
    ensures AllBefore(after.keys, later)
  {
    hide FirstStay, BestFor, FirstBest;
  }

  /** The pick after a pick of the same session, if no other session was used
      since: it hits exactly when the session is alive and may stay, and then
      goes to the same node.  Among equally cool candidates it goes there only
      then. */
  lemma NextPick(l: Limits, before: Memory, req: Request, c: seq<Backend>, f: string -> int, now: int, b: Backend, r: Decision, kept: Sessions, mid: Memory,
                 req': Request, c': seq<Backend>, g: string -> int, now': int, b': Backend, r': Decision, kept': Sessions, after: Memory)
    requires Picks(l, before, req, c, f, now, b, r, kept, mid) && Picks(l, mid, req', c', g, now', b', r', kept', after)
    requires req.affinityKey == req'.affinityKey != "" && l.maxKeys > 0 && l.spill > 0
    requires AllBefore(before.keys, now)
    ensures r' == Hit <==> now' - now <= l.ttl && CanStay(c', b.nodeId, g, l.spill)
    ensures r' == Hit ==> b'.nodeId == b.nodeId
    ensures NonHot(c') == c' && now' - now <= l.ttl ==> (b'.nodeId == b.nodeId <==> CanStay(c', b.nodeId, g, l.spill))
  {
    var key := req.affinityKey;
    Pinned(l, before, req, c, f, now, b, r, kept, mid);
    SessionSticks(mid.keys, kept', key, c', g, now', l.ttl, l.maxKeys, l.spill);
    AliveIsKept(kept', mid.keys, key, now', l.ttl, l.maxKeys);
    hide Pruned, FirstBest;
    if r' != Hit && NonHot(c') == c' && b'.nodeId == b.nodeId { BestMayStay(b', c', g, kept' - {key}, l.spill); }
  }

  /** After a pick the session is pinned to where it went. */
  lemma Pinned(l: Limits, before: Memory, req: Request, c: seq<Backend>, f: string -> int, now: int, b: Backend, r: Decision, kept: Sessions, after: Memory)
    requires Picks(l, before, req, c, f, now, b, r, kept, after) && req.affinityKey != ""
    requires AllBefore(before.keys, now)
    ensures req.affinityKey in after.keys && after.keys[req.affinityKey].node == b.nodeId && after.keys[req.affinityKey].last == now
    ensures forall q :: q in after.keys && q != req.affinityKey ==> after.keys[q].last < now
  {
    hide BestFor, FirstBest;
  }

  /** The latest session survives pruning while it is alive. */
  lemma AliveIsKept(kept: Sessions, keys: Sessions, key: string, now: int, ttl: int, max: nat)
    requires Pruned(kept, keys, now, ttl, max) && max > 0 && key in keys && forall q :: q in keys && q != key ==> keys[q].last < keys[key].last
    ensures key in kept <==> now - keys[key].last <= ttl
  {
    if kept.Keys != {} {
      var q :| q in kept.Keys;
      assert q in keys;
    }
  }

  lemma BestMayStay(b: Backend, c: seq<Backend>, inflight: string -> int, others: Sessions, spill: int)
    requires BestFor(b, c, inflight, others) && NonHot(c) == c && spill > 0
    ensures MayStay(b, c, b.nodeId, inflight, spill)
  {
  }
}
