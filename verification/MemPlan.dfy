/** Memory sizing shared by the controller's planner and the node agent
    (internal/memplan/memplan.go, node-agent/sizing.go). */
module MemPlan {
  import opened Ordering

  const MIN_CTX: int := 4096
  const MIB: int := 0x10_0000

  datatype Shape = Shape(layers: nat, kvHeads: nat, headDim: nat)

  /** What a model weighs: file size, resident bytes (0 = unknown) and shape. */
  datatype Weights = Weights(fileSize: int, residentBytes: int, shape: Shape)

  /** One configuration the search may try. */
  datatype Config = Config(ctx: int, slots: int, kv: string)

  datatype Result = Result(config: Config, need: int, fits: bool)

  /** (resident, sparse) */
  function ResidentWeightBytes(fileSize: int, residentBytes: int): (int, int)
  {
    if residentBytes <= 0 || residentBytes > fileSize then (fileSize, 0)
    else (residentBytes, fileSize - residentBytes)
  }

  /** K+V bytes of one token: 2 bytes an element for f16, 17/16 for q8_0,
      truncated to whole bytes. */
  function BytesPerToken(s: Shape, kv: string): nat
  {
    if kv == "q8_0" then 2 * s.layers * s.kvHeads * s.headDim * 17 / 16
    else 2 * s.layers * s.kvHeads * s.headDim * 2
  }

  /** Resident weights, a tenth of the sparse bytes, the KV cache of every slot
      and 150 MiB of overhead. */
  function NeedBytes(w: Weights, c: Config): int
  {
    var (resident, sparse) := ResidentWeightBytes(w.fileSize, w.residentBytes);
    resident + sparse / 10 + c.slots * c.ctx * BytesPerToken(w.shape, c.kv) + 150 * MIB
  }

  function KVCandidates(kvType: string): (kvs: seq<string>)
    ensures kvs != []
  {
    if kvType == "f16" || kvType == "q8_0" then [kvType] else ["f16", "q8_0"]
  }

  /** A slot more costs its context; without a slot only weights and overhead
      remain; a quantised cell costs 17/32 of an exact one, rounded down. */
  lemma WhatMemoryCosts(w: Weights, c: Config)
    ensures NeedBytes(w, c.(slots := c.slots + 1)) == NeedBytes(w, c) + c.ctx * BytesPerToken(w.shape, c.kv)
    ensures BytesPerToken(w.shape, "f16") == 4 * w.shape.layers * w.shape.kvHeads * w.shape.headDim
    ensures 0 <= 17 * BytesPerToken(w.shape, "f16") - 32 * BytesPerToken(w.shape, "q8_0") < 32
  {
    var per := BytesPerToken(w.shape, c.kv);
    assert (c.slots + 1) * c.ctx * per == c.slots * c.ctx * per + c.ctx * per;
    var cells := 2 * w.shape.layers * w.shape.kvHeads * w.shape.headDim;
    assert BytesPerToken(w.shape, "q8_0") == cells * 17 / 16 && BytesPerToken(w.shape, "f16") == cells * 2;
  }

  // ----- the ladder of configurations ---------------------------------------

  /** One rung: every KV candidate at the same context and slot count. */
  function Rung(ctx: int, slots: int, kvs: seq<string>): (r: seq<Config>)
    ensures |r| == |kvs|
    ensures forall i :: 0 <= i < |kvs| ==> r[i] == Config(ctx, slots, kvs[i])
  {
    seq(|kvs|, i requires 0 <= i < |kvs| => Config(ctx, slots, kvs[i]))
  }

  function Halve(ctx: int): int { Max(ctx / 2, MIN_CTX) }

  /** Every configuration the search may try, in the order it tries them. */
  function Ladder(ctx: int, slots: int, kvs: seq<string>): (l: seq<Config>)
    requires kvs != []
    ensures l != []
    decreases ctx
  {
    Rung(ctx, slots, kvs) +
    (if ctx > MIN_CTX then Ladder(Halve(ctx), slots, kvs)
     else if slots > 1 then Rung(ctx, 1, kvs) else [])
  }

  function FirstFit(w: Weights, l: seq<Config>, budget: int): Result
    requires l != []
  {
    var need := NeedBytes(w, l[0]);
    if need <= budget then Result(l[0], need, true)
    else if |l| == 1 then Result(l[0], need, false)
    else FirstFit(w, l[1..], budget)
  }

  function StartCtx(ctx: int): int { if ctx <= 0 then MIN_CTX else ctx }
  function StartSlots(slots: int): int { if slots <= 0 then 1 else slots }

  function LadderOf(ctx: int, slots: int, kvType: string): (l: seq<Config>)
    ensures l != []
  {
    Ladder(StartCtx(ctx), StartSlots(slots), KVCandidates(kvType))
  }

  /** The value of memplan.Plan; the method Plan below computes it. */
  function PlanFor(w: Weights, ctx: int, slots: int, kvType: string, budget: int): Result
  {
    FirstFit(w, LadderOf(ctx, slots, kvType), budget)
  }

  /** The last and smallest configuration of a search. */
  function Smallest(ctx: int, slots: int, kvType: string): Config
  {
    var kvs := KVCandidates(kvType);
    Config(Min(StartCtx(ctx), MIN_CTX), 1, kvs[|kvs| - 1])
  }

  // ----- the search as the source runs it ------------------------------------

  method Try(w: Weights, ctx: int, slots: int, kvs: seq<string>, budget: int) returns (r: Result)
    requires kvs != []
    ensures r == FirstFit(w, Rung(ctx, slots, kvs), budget)
  {
    var l := Rung(ctx, slots, kvs);
    var i := 0;
    while i < |kvs|
      invariant 0 <= i <= |kvs|
      invariant forall j :: 0 <= j < i ==> NeedBytes(w, l[j]) > budget
    {
      var need := NeedBytes(w, Config(ctx, slots, kvs[i]));
      if need <= budget {
        FirstFitAt(w, l, budget, i);
        return Result(Config(ctx, slots, kvs[i]), need, true);
      }
      i := i + 1;
    }
    NoFit(w, l, budget);
    var last := Config(ctx, slots, kvs[|kvs| - 1]);
    r := Result(last, NeedBytes(w, last), false);
  }

  method Plan(w: Weights, ctx0: int, slots0: int, kvType: string, budget: int) returns (r: Result)
    ensures r == PlanFor(w, ctx0, slots0, kvType, budget)
  {
    var ctx := if ctx0 <= 0 then MIN_CTX else ctx0;
    var slots := if slots0 <= 0 then 1 else slots0;
    var kvs := KVCandidates(kvType);
    ghost var want := PlanFor(w, ctx0, slots0, kvType, budget);
    r := Try(w, ctx, slots, kvs, budget);
    FirstRung(w, ctx, slots, kvs, budget);
    if r.fits { return; }
    while ctx > MIN_CTX
      invariant want == FirstFit(w, Ladder(ctx, slots, kvs), budget)
      invariant r == FirstFit(w, Rung(ctx, slots, kvs), budget) && !r.fits
      decreases ctx
    {
      FirstRung(w, ctx, slots, kvs, budget);
      ctx := ctx / 2;
      if ctx < MIN_CTX { ctx := MIN_CTX; }
      r := Try(w, ctx, slots, kvs, budget);
      if r.fits {
        FirstRung(w, ctx, slots, kvs, budget);
        return;
      }
    }
    FirstRung(w, ctx, slots, kvs, budget);
    if slots > 1 {
      slots := 1;
      r := Try(w, ctx, slots, kvs, budget);
      return;
    }
    assert Rung(ctx, slots, kvs) == Ladder(ctx, slots, kvs);
  }

  // ----- how FirstFit walks a ladder -----------------------------------------

  lemma {:induction false} FirstFitAt(w: Weights, l: seq<Config>, budget: int, i: nat)
    requires i < |l| && NeedBytes(w, l[i]) <= budget
    requires forall j :: 0 <= j < i ==> NeedBytes(w, l[j]) > budget
    ensures FirstFit(w, l, budget) == Result(l[i], NeedBytes(w, l[i]), true)
  {
    if i > 0 {
      assert NeedBytes(w, l[0]) > budget;
      FirstFitAt(w, l[1..], budget, i - 1);
    }
  }

  lemma {:induction false} NoFit(w: Weights, l: seq<Config>, budget: int)
    requires l != [] && forall j :: 0 <= j < |l| ==> NeedBytes(w, l[j]) > budget
    ensures FirstFit(w, l, budget) == Result(l[|l| - 1], NeedBytes(w, l[|l| - 1]), false)
  {
    assert NeedBytes(w, l[0]) > budget;
    if |l| > 1 { NoFit(w, l[1..], budget); }
  }

  /** FirstFit returns the first fitting entry, and every earlier entry exceeds
      the budget; when nothing fits it returns the last entry. */
  lemma {:induction false} FirstFitIsFirst(w: Weights, l: seq<Config>, budget: int) returns (i: nat)
    requires l != []
    ensures i < |l| && forall j :: 0 <= j < i ==> NeedBytes(w, l[j]) > budget
    ensures FirstFit(w, l, budget) == Result(l[i], NeedBytes(w, l[i]), NeedBytes(w, l[i]) <= budget)
    ensures !FirstFit(w, l, budget).fits ==> i == |l| - 1
  {
    i := 0;
    while i < |l| - 1 && NeedBytes(w, l[i]) > budget
      invariant i < |l|
      invariant forall j :: 0 <= j < i ==> NeedBytes(w, l[j]) > budget
    {
      i := i + 1;
    }
    if NeedBytes(w, l[i]) <= budget { FirstFitAt(w, l, budget, i); } else { NoFit(w, l, budget); }
  }

  lemma FirstFitAppend(w: Weights, a: seq<Config>, b: seq<Config>, budget: int)
    requires a != []
    ensures FirstFit(w, a + b, budget) ==
            if FirstFit(w, a, budget).fits || b == [] then FirstFit(w, a, budget) else FirstFit(w, b, budget)
  {
    if b == [] {
      assert a + b == a;
    } else if |a| == 1 {
      assert (a + b)[1..] == b && (a + b)[0] == a[0];
    } else {
      assert (a + b)[1..] == a[1..] + b && (a + b)[0] == a[0];
      FirstFitAppend(w, a[1..], b, budget);
    }
  }

  /** One step of the search: the rung at ctx decides, else the rest does. */
  lemma FirstRung(w: Weights, ctx: int, slots: int, kvs: seq<string>, budget: int)
    requires kvs != []
    ensures FirstFit(w, Ladder(ctx, slots, kvs), budget) ==
            var here := FirstFit(w, Rung(ctx, slots, kvs), budget);
            if here.fits then here
            else if ctx > MIN_CTX then FirstFit(w, Ladder(Halve(ctx), slots, kvs), budget)
            else if slots > 1 then FirstFit(w, Rung(ctx, 1, kvs), budget)
            else here
  {
    var rest := if ctx > MIN_CTX then Ladder(Halve(ctx), slots, kvs)
                else if slots > 1 then Rung(ctx, 1, kvs) else [];
    FirstFitAppend(w, Rung(ctx, slots, kvs), rest, budget);
  }

  // ----- what every ladder looks like ----------------------------------------

  lemma Product(a: nat, b: nat, c: nat, d: nat)
    requires a <= c && b <= d
    ensures a * b <= c * d
  {
    assert a * b <= c * b;
    assert c * b <= c * d;
  }

  lemma NeedMonotone(w: Weights, small: Config, big: Config)
    requires 0 <= small.ctx <= big.ctx && 0 <= small.slots <= big.slots
    requires BytesPerToken(w.shape, small.kv) <= BytesPerToken(w.shape, big.kv)
    ensures NeedBytes(w, small) <= NeedBytes(w, big)
  {
    Product(small.slots, small.ctx, big.slots, big.ctx);
    Product(small.slots * small.ctx, BytesPerToken(w.shape, small.kv), big.slots * big.ctx, BytesPerToken(w.shape, big.kv));
  }

  lemma QuantisedIsSmaller(s: Shape)
    ensures BytesPerToken(s, "q8_0") <= BytesPerToken(s, "f16")
  {
    var n: nat := 2 * s.layers * s.kvHeads * s.headDim;
    assert n * 17 / 16 <= n * 2;
  }

  /** What follows the first rung of a ladder. */
  function LowerRungs(ctx: int, slots: int, kvs: seq<string>): seq<Config>
    requires kvs != []
  {
    if ctx > MIN_CTX then Ladder(Halve(ctx), slots, kvs)
    else if slots > 1 then Rung(ctx, 1, kvs) else []
  }

  lemma LadderIs(ctx: int, slots: int, kvs: seq<string>)
    requires kvs != []
    ensures Ladder(ctx, slots, kvs) == Rung(ctx, slots, kvs) + LowerRungs(ctx, slots, kvs)
  {
  }

  /** Every entry lies between the requested configuration and the smallest. */
  lemma {:induction false} LadderBounds(ctx: int, slots: int, kvs: seq<string>)
    requires ctx > 0 && slots > 0 && kvs != []
    ensures forall c :: c in Ladder(ctx, slots, kvs) ==> c.kv in kvs && Min(ctx, MIN_CTX) <= c.ctx <= ctx && 0 < c.slots <= slots
    decreases ctx
  {
    LadderIs(ctx, slots, kvs);
    if ctx > MIN_CTX { LadderBounds(Halve(ctx), slots, kvs); }
    hide Ladder;
  }

  lemma {:induction false} LadderEnds(ctx: int, slots: int, kvs: seq<string>)
    requires ctx > 0 && slots > 0 && kvs != []
    ensures var l := Ladder(ctx, slots, kvs);
            l[0] == Config(ctx, slots, kvs[0]) && l[|l| - 1] == Config(Min(ctx, MIN_CTX), 1, kvs[|kvs| - 1])
    decreases ctx
  {
    LadderIs(ctx, slots, kvs);
    if ctx > MIN_CTX { LadderEnds(Halve(ctx), slots, kvs); }
    hide Ladder;
  }

  ghost predicate Descends(l: seq<Config>)
  {
    forall i, j :: 0 <= i <= j < |l| ==> l[j].ctx <= l[i].ctx && l[j].slots <= l[i].slots
  }

  lemma DescendsOn(ctx: int, slots: int, kvs: seq<string>, rest: seq<Config>)
    requires Descends(rest) && forall c :: c in rest ==> c.ctx <= ctx && c.slots <= slots
    ensures Descends(Rung(ctx, slots, kvs) + rest)
  {
  }

  /** Contexts and slot counts only shrink along a ladder, and it ends at the
      smallest configuration. */
  lemma {:induction false} LadderDescends(ctx: int, slots: int, kvs: seq<string>)
    requires ctx > 0 && slots > 0 && kvs != []
    ensures Descends(Ladder(ctx, slots, kvs))
    ensures var l := Ladder(ctx, slots, kvs);
            && l[0] == Config(ctx, slots, kvs[0]) && l[|l| - 1] == Config(Min(ctx, MIN_CTX), 1, kvs[|kvs| - 1])
            && forall c :: c in l ==> c.kv in kvs && Min(ctx, MIN_CTX) <= c.ctx <= ctx && 0 < c.slots <= slots
    decreases ctx
  {
    LadderEnds(ctx, slots, kvs);
    LadderBounds(ctx, slots, kvs);
    LadderIs(ctx, slots, kvs);
    if ctx > MIN_CTX {
      LadderDescends(Halve(ctx), slots, kvs);
      assert LowerRungs(ctx, slots, kvs) == Ladder(Halve(ctx), slots, kvs);
    } else {
      hide Ladder;
      assert Descends(LowerRungs(ctx, slots, kvs));
    }
    hide Ladder, Descends, LowerRungs;
    DescendsOn(ctx, slots, kvs, LowerRungs(ctx, slots, kvs));
  }

  lemma LastNeedsLeast(w: Weights, ctx: int, slots: int, kvType: string)
    ensures forall c :: c in LadderOf(ctx, slots, kvType) ==>
              NeedBytes(w, Smallest(ctx, slots, kvType)) <= NeedBytes(w, c)
    ensures var l := LadderOf(ctx, slots, kvType); l[|l| - 1] == Smallest(ctx, slots, kvType)
  {
    LadderDescends(StartCtx(ctx), StartSlots(slots), KVCandidates(kvType));
    QuantisedIsSmaller(w.shape);
    var l := LadderOf(ctx, slots, kvType);
    forall i | 0 <= i < |l| ensures NeedBytes(w, Smallest(ctx, slots, kvType)) <= NeedBytes(w, l[i]) {
      NeedMonotone(w, Smallest(ctx, slots, kvType), l[i]);
    }
  }

  // ----- main results -----------------------------------------------------------

  /** The search fits exactly when the smallest configuration fits; a fitting
      answer is the first fitting entry of the ladder; a failing answer is the
      smallest configuration, and no entry needs less. */
  lemma SearchIsExact(w: Weights, ctx: int, slots: int, kvType: string, budget: int)
    ensures var r := PlanFor(w, ctx, slots, kvType, budget);
            var l := LadderOf(ctx, slots, kvType);
            && (r.fits <==> NeedBytes(w, Smallest(ctx, slots, kvType)) <= budget)
            && (r.fits ==> exists i :: 0 <= i < |l| && r == Result(l[i], NeedBytes(w, l[i]), true) && r.need <= budget
                             && forall j :: 0 <= j < i ==> NeedBytes(w, l[j]) > budget)
            && (!r.fits ==> r.config == Smallest(ctx, slots, kvType) && forall c :: c in l ==> r.need <= NeedBytes(w, c))
  {
    LastNeedsLeast(w, ctx, slots, kvType);
    var l := LadderOf(ctx, slots, kvType);
    var i := FirstFitIsFirst(w, l, budget);
    assert l[|l| - 1] in l;
    assert l[i] in l;
    if !PlanFor(w, ctx, slots, kvType, budget).fits {
      assert NeedBytes(w, l[i]) > budget;
    }
  }

  /** A larger budget never turns a fit into a misfit, nor shrinks the context
      or the slot count. */
  lemma BudgetMonotone(w: Weights, ctx: int, slots: int, kvType: string, budget: int, larger: int)
    requires budget <= larger
    ensures var r, s := PlanFor(w, ctx, slots, kvType, budget), PlanFor(w, ctx, slots, kvType, larger);
            && (r.fits ==> s.fits)
            && r.config.ctx <= s.config.ctx && r.config.slots <= s.config.slots
  {
    SearchIsExact(w, ctx, slots, kvType, budget);
    SearchIsExact(w, ctx, slots, kvType, larger);
    LadderDescends(StartCtx(ctx), StartSlots(slots), KVCandidates(kvType));
    var l := LadderOf(ctx, slots, kvType);
    var i := FirstFitIsFirst(w, l, budget);
    var j := FirstFitIsFirst(w, l, larger);
    assert j <= i;
  }

  // ----- which configurations are tried ------------------------------------------

  /** 2 to the power of k. */
  function Pow2(k: nat): (r: nat)
    ensures r > 0
  {
    if k == 0 then 1 else 2 * Pow2(k - 1)
  }

  /** The context after k halvings of ctx, down to MIN_CTX. */
  function Halved(ctx: int, k: nat): int
  {
    if ctx <= MIN_CTX then ctx else Max(ctx / Pow2(k), MIN_CTX)
  }

  lemma QuotientIs(a: nat, m: nat, q: nat)
    requires m > 0 && q * m <= a < (q + 1) * m
    ensures a / m == q
  {
    var p := a / m;
    Divides(a, m);
    if p < q { Product(p + 1, m, q, m); }
    if p > q { Product(q + 1, m, p, m); }
  }

  lemma Divides(a: nat, m: nat)
    requires m > 0
    ensures (a / m) * m <= a < (a / m + 1) * m
  {
    assert a == m * (a / m) + a % m;
    assert (a / m + 1) * m == (a / m) * m + m;
  }

  lemma QuotientTwice(a: nat, d: nat)
    requires d > 0
    ensures a / 2 / d == a / (2 * d)
  {
    var q := a / 2 / d;
    Divides(a / 2, d);
    assert q * (2 * d) == 2 * (q * d) && (q + 1) * (2 * d) == 2 * ((q + 1) * d);
    QuotientIs(a, 2 * d, q);
  }

  lemma AtLeast(q: int, d: nat)
    requires d > 0
    ensures q >= 0 ==> q <= q * d
  {
    if q >= 0 { Product(q, 1, q, d); }
  }

  lemma SmallerQuotient(a: nat, d: nat)
    requires d > 0
    ensures a / d <= a
  {
    Divides(a, d);
    AtLeast(a / d, d);
  }

  /** Halving once more is halving the half. */
  lemma HalvedNext(ctx: int, k: nat)
    requires ctx > MIN_CTX
    ensures Halved(ctx, k + 1) == Halved(Max(ctx / 2, MIN_CTX), k) && Halved(ctx, 0) == ctx
  {
    QuotientTwice(ctx, Pow2(k));
    if ctx / 2 <= MIN_CTX { SmallerQuotient(ctx / 2, Pow2(k)); }
  }

  /** Every context of the halving is tried, with every KV candidate, before a
      smaller one; and every one of them before a single slot. */
  ghost predicate Exhausts(w: Weights, ctx: int, slots: int, kvs: seq<string>, budget: int, r: Result)
  {
    && (exists k: nat :: r.config.ctx == Halved(ctx, k))
    && (forall j: nat, kv :: kv in kvs && Halved(ctx, j) > r.config.ctx ==> NeedBytes(w, Config(Halved(ctx, j), slots, kv)) > budget)
    && (r.config.slots == slots
        || (r.config.slots == 1 && forall j: nat, kv :: kv in kvs ==> NeedBytes(w, Config(Halved(ctx, j), slots, kv)) > budget))
  }

  lemma {:induction false} LadderExhausts(w: Weights, ctx: int, slots: int, kvs: seq<string>, budget: int)
    requires ctx > 0 && slots > 0 && kvs != []
    ensures Exhausts(w, ctx, slots, kvs, budget, FirstFit(w, Ladder(ctx, slots, kvs), budget))
    decreases ctx
  {
    FirstRung(w, ctx, slots, kvs, budget);
    var here, r := FirstFit(w, Rung(ctx, slots, kvs), budget), FirstFit(w, Ladder(ctx, slots, kvs), budget);
    var i := FirstFitIsFirst(w, Rung(ctx, slots, kvs), budget);
    NoHigher(ctx);
    if !here.fits {
      forall kv | kv in kvs ensures NeedBytes(w, Config(ctx, slots, kv)) > budget {
        var x :| 0 <= x < |kvs| && kvs[x] == kv;
        assert Rung(ctx, slots, kvs)[x] == Config(ctx, slots, kv);
        assert x < i || x == i;
      }
      if ctx > MIN_CTX {
        var half := Max(ctx / 2, MIN_CTX);
        assert Halve(ctx) == half;
        LadderExhausts(w, half, slots, kvs, budget);
        hide NeedBytes, Ladder, FirstFit;
        ExhaustsMore(w, ctx, slots, kvs, budget, r);
      } else if slots > 1 {
        var one := FirstFitIsFirst(w, Rung(ctx, 1, kvs), budget);
      }
    }
  }

  /** ctx is the largest context of its halving, and the first. */
  lemma NoHigher(ctx: int)
    requires ctx > 0
    ensures Halved(ctx, 0) == ctx && forall j: nat :: Halved(ctx, j) <= ctx
    ensures ctx <= MIN_CTX ==> forall j: nat :: Halved(ctx, j) == ctx
  {
    forall j: nat ensures Halved(ctx, j) <= ctx {
      SmallerQuotient(ctx, Pow2(j));
    }
  }

  lemma ExhaustsMore(w: Weights, ctx: int, slots: int, kvs: seq<string>, budget: int, r: Result)
    requires ctx > MIN_CTX && Exhausts(w, Max(ctx / 2, MIN_CTX), slots, kvs, budget, r)
    requires forall kv :: kv in kvs ==> NeedBytes(w, Config(ctx, slots, kv)) > budget
    ensures Exhausts(w, ctx, slots, kvs, budget, r)
  {
    hide NeedBytes, Halved;
    var half := Max(ctx / 2, MIN_CTX);
    var k: nat :| r.config.ctx == Halved(half, k);
    HalvedNext(ctx, k);
    assert r.config.ctx == Halved(ctx, k + 1);
    forall j: nat ensures if j == 0 then Halved(ctx, j) == ctx else Halved(ctx, j) == Halved(half, j - 1) {
      HalvedNext(ctx, if j == 0 then 0 else j - 1);
    }
  }

  /** The search in words.  It answers with the requested context, or half of it,
      a quarter, …, down to 4096; every larger one of these exceeds the budget at
      the requested slots, with every KV type; a single slot is the answer only
      if all of them do; and a quantised cache only if the exact one exceeds it. */
  lemma SearchHalves(w: Weights, ctx: int, slots: int, kvType: string, budget: int)
    ensures var r, kvs := PlanFor(w, ctx, slots, kvType, budget), if kvType == "f16" || kvType == "q8_0" then [kvType] else ["f16", "q8_0"];
            var start, wanted := if ctx <= 0 then MIN_CTX else ctx, if slots <= 0 then 1 else slots;
            && Exhausts(w, start, wanted, kvs, budget, r)
            && r.config.kv in kvs && r.need == NeedBytes(w, r.config) && (r.fits <==> r.need <= budget)
            && (r.config.kv != kvs[0] ==> NeedBytes(w, r.config.(kv := kvs[0])) > budget)
  {
    var start, wanted, kvs := StartCtx(ctx), StartSlots(slots), KVCandidates(kvType);
    LadderExhausts(w, start, wanted, kvs, budget);
    FirstKVFirst(w, start, wanted, kvs, budget);
    LadderBounds(start, wanted, kvs);
    var i := FirstFitIsFirst(w, LadderOf(ctx, slots, kvType), budget);
    assert LadderOf(ctx, slots, kvType)[i] in LadderOf(ctx, slots, kvType);
  }

  lemma {:induction false} FirstKVFirst(w: Weights, ctx: int, slots: int, kvs: seq<string>, budget: int)
    requires ctx > 0 && slots > 0 && kvs != []
    ensures var r := FirstFit(w, Ladder(ctx, slots, kvs), budget);
            r.config.kv != kvs[0] ==> NeedBytes(w, r.config.(kv := kvs[0])) > budget
    decreases ctx
  {
    FirstRung(w, ctx, slots, kvs, budget);
    var i := FirstFitIsFirst(w, Rung(ctx, slots, kvs), budget);
    var one := FirstFitIsFirst(w, Rung(ctx, 1, kvs), budget);
    hide NeedBytes, Ladder, FirstFit;
    assert Rung(ctx, slots, kvs)[0] == Config(ctx, slots, kvs[0]) && Rung(ctx, 1, kvs)[0] == Config(ctx, 1, kvs[0]);
    if ctx > MIN_CTX { FirstKVFirst(w, Halve(ctx), slots, kvs, budget); }
  }

  // ----- the agent's side --------------------------------------------------------

  datatype SizingRequest = SizingRequest(weights: Weights, ctxSize: int, slots: int, kvType: string, budgetBytes: int)
  datatype Sizing = Sized(config: Config, ramEstimateBytes: int) | DoesNotFit(need: int)

  function PlanMemory(req: SizingRequest): Sizing
  {
    var r := PlanFor(req.weights, req.ctxSize, req.slots, req.kvType, req.budgetBytes);
    if r.fits then Sized(r.config, r.need) else DoesNotFit(r.need)
  }
}
