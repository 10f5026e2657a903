/** The planner's data and its pure rules (controller/models/planner.go,
    classes.go, perf.go). */
module PlannerModel {
  import opened Ordering
  import MemPlan

  const GIB: int := 0x4000_0000
  const DEFAULT_CTX_SIZE: int := 16384
  const RUNTIME_OVERHEAD_BYTES: int := 150 * MemPlan.MIB
  const ANDROID_BASELINE_BYTES: int := 2 * GIB

  /** Device class ids, smallest RAM first. */
  const CLASSES: seq<string> := ["xs", "s", "m", "l", "xl"]

  datatype Mode = Pin | Replicas | Percent | UnknownMode(text: string)

  datatype Reason = ByPin | ByReplicas | ByPercent | ByDefault | Keep | NoModel | Benchmark

  datatype Policy = Policy(
    modelId: string, mode: Mode, nodes: seq<string>, replicas: int, percent: real,
    classes: seq<string>, minTokS: real)

  datatype Spec = Spec(policies: seq<Policy>, defaultModel: string)

  datatype Node = Node(
    id: string, class_: string, ramTotalBytes: nat, speed: real, genGBps: real, promptGBps: real,
    currentModel: string, assignedModel: string, drained: bool, budgetBytes: int)

  datatype PlanModel = PlanModel(id: string, sizeBytes: nat, residentBytes: int, ctxTrain: int, shape: MemPlan.Shape)

  datatype Assignment = Assignment(
    nodeId: string, modelId: string, reason: Reason, ctxSize: int, slots: int, kvType: string,
    estRAMBytes: int, fits: bool, predGenTPS: real, predPromptTPS: real)

  /** Why no node was eligible for a policy. */
  datatype NoFit = NoClassMatch | NotEnoughMemory | NotFastEnough

  datatype Warning =
    | PolicyWaits(model: string, mode: Mode)
    | DefaultWaits(model: string)
    | PinNotConnected(model: string, node: string)
    | AlreadyPinned(model: string, node: string, to: string)
    | PinTooBig(model: string, node: string)
    | TooSlow(model: string, node: string, predicted: real, minTokS: real)
    | NoEligible(model: string, why: NoFit)
    | Shortfall(model: string, wants: int, got: int)
    | DefaultTooBig(model: string, nodes: seq<string>)

  datatype Plan = Plan(rows: seq<Assignment>, warnings: seq<Warning>)

  // ----- models ------------------------------------------------------------

  function CtxSize(m: PlanModel): int
  {
    if 0 < m.ctxTrain < DEFAULT_CTX_SIZE then m.ctxTrain else DEFAULT_CTX_SIZE
  }

  function Resident(m: PlanModel): int
  {
    if m.residentBytes > 0 then m.residentBytes else m.sizeBytes
  }

  function KVCacheBytes(s: MemPlan.Shape, ctx: int): int
  {
    2 * s.layers * ctx * s.kvHeads * s.headDim * 2
  }

  function EstRAM(m: PlanModel): int
  {
    Resident(m) + KVCacheBytes(m.shape, CtxSize(m)) + RUNTIME_OVERHEAD_BYTES
  }

  function Weights(m: PlanModel): MemPlan.Weights
  {
    MemPlan.Weights(m.sizeBytes, m.residentBytes, m.shape)
  }

  // ----- one model on one node ------------------------------------------------

  predicate Fits(est: int, ramTotal: nat)
  {
    ramTotal > ANDROID_BASELINE_BYTES && est <= ramTotal - ANDROID_BASELINE_BYTES
  }

  /** On a node that reports a budget the agent's own search decides, else the
      class heuristic. */
  predicate FitsNode(m: PlanModel, n: Node)
  {
    if n.budgetBytes > 0 then MemPlan.PlanFor(Weights(m), CtxSize(m), 1, "auto", n.budgetBytes).fits
    else Fits(EstRAM(m), n.ramTotalBytes)
  }

  function PredictedTPS(gbps: real, residentBytes: int): real
  {
    if gbps <= 0.0 || residentBytes <= 0 then 0.0
    else gbps * 1000000000.0 / residentBytes as real
  }

  predicate MeetsSpeed(m: PlanModel, n: Node, minTokS: real)
  {
    minTokS <= 0.0 ||
    var pred := PredictedTPS(n.genGBps, Resident(m));
    pred == 0.0 || pred >= minTokS
  }

  function EffectiveMinTokS(p: Policy, def: real): real
  {
    if p.minTokS > 0.0 then p.minTokS else def
  }

  predicate MatchesClass(filter: seq<string>, class_: string)
  {
    filter == [] || class_ in filter
  }

  // ----- quotas -------------------------------------------------------------------

  /** p percent of n rounded half up, at least 1 when p > 0 and n > 0. */
  function PercentOf(p: real, n: nat): int
  {
    if p <= 0.0 || n == 0 then 0
    else Max(1, (p * n as real / 100.0 + 0.5 + 0.000000001).Floor)
  }

  /** A validated percentage of a non-empty pool asks for 1..pool nodes, within
      half a node of the exact share, and 100% asks for all of them. */
  lemma PercentOfInPool(p: real, n: nat)
    requires 0.0 < p <= 100.0 && n > 0
    ensures 1 <= PercentOf(p, n) <= n
    ensures p == 100.0 ==> PercentOf(p, n) == n
    ensures var share, r := p * n as real / 100.0, PercentOf(p, n);
            share - 0.5 < r as real && (r == 1 || r as real <= share + 0.500000001)
  {
    var share := p * n as real / 100.0;
    assert share <= n as real by {
      assert p * n as real <= 100.0 * n as real;
    }
    assert share + 0.5 + 0.000000001 == share + 0.500000001;
    assert (share + 0.500000001).Floor <= (n as real + 0.500000001).Floor == n;
  }

  // ----- which node a model prefers -----------------------------------------------

  function Rank(id: string, n: Node): int
  {
    if n.currentModel == id then 0 else if n.assignedModel == id then 1 else 2
  }

  function CmpInt(a: int, b: int): int { if a < b then -1 else if a > b then 1 else 0 }
  function CmpReal(a: real, b: real): int { if a < b then -1 else if a > b then 1 else 0 }

  /** Nodes serving the model, then nodes the last plan gave it, then faster,
      then bigger, then by id. */
  function PreferFor(id: string, a: Node, b: Node): int
  {
    if Rank(id, a) != Rank(id, b) then CmpInt(Rank(id, a), Rank(id, b)) else TieBreak(a, b)
  }

  function TieBreak(a: Node, b: Node): int
  {
    if b.speed != a.speed then CmpReal(b.speed, a.speed)
    else if b.ramTotalBytes != a.ramTotalBytes then CmpInt(b.ramTotalBytes, a.ramTotalBytes)
    else Compare(a.id, b.id)
  }

  function Preferred(id: string): (Node, Node) -> bool
  {
    (a: Node, b: Node) => PreferFor(id, a, b) <= 0
  }

  function ById(): (Node, Node) -> bool
  {
    (a: Node, b: Node) => Compare(a.id, b.id) <= 0
  }

  ghost predicate UniqueIds(nodes: seq<Node>)
  {
    forall i, j :: 0 <= i < |nodes| && 0 <= j < |nodes| && nodes[i].id == nodes[j].id ==> i == j
  }

  lemma UniqueIdsPermute(s: seq<Node>, t: seq<Node>)
    requires UniqueIds(s) && multiset(s) == multiset(t)
    ensures UniqueIds(t)
  {
    assert Distinct(s);
    DistinctMultiset(s);
    DistinctMultiset(t);
    SameElements(s, t);
    forall i, j | 0 <= i < |t| && 0 <= j < |t| && t[i].id == t[j].id ensures i == j {
      assert t[i] in s && t[j] in s;
      assert t[i] == t[j];
    }
  }

  /** preferFor is a total preorder on nodes, and strict on nodes with unique
      ids: it never ties two of them. */
  lemma PreferIsTotal(id: string)
    ensures TotalPreorder(Preferred(id))
  {
    forall a: Node, b: Node ensures Preferred(id)(a, b) || Preferred(id)(b, a) {
      CompareFlips(a.id, b.id);
    }
    forall a: Node, b: Node, c: Node | Preferred(id)(a, b) && Preferred(id)(b, c) ensures Preferred(id)(a, c) {
      if Compare(a.id, b.id) <= 0 && Compare(b.id, c.id) <= 0 { CompareTransitive(a.id, b.id, c.id); }
    }
  }

  lemma PreferSeparates(id: string, s: seq<Node>)
    requires UniqueIds(s)
    ensures Separates(Preferred(id), s)
  {
    forall i, j | 0 <= i < |s| && 0 <= j < |s| && Preferred(id)(s[i], s[j]) && Preferred(id)(s[j], s[i])
      ensures s[i] == s[j]
    {
      CompareFlips(s[i].id, s[j].id);
      CompareZero(s[i].id, s[j].id);
    }
  }

  lemma ByIdIsTotal()
    ensures TotalPreorder(ById())
  {
    forall a: Node, b: Node ensures ById()(a, b) || ById()(b, a) { CompareFlips(a.id, b.id); }
    forall a: Node, b: Node, c: Node | ById()(a, b) && ById()(b, c) ensures ById()(a, c) {
      CompareTransitive(a.id, b.id, c.id);
    }
  }

  lemma ByIdSeparates(s: seq<Node>)
    requires UniqueIds(s)
    ensures Separates(ById(), s)
  {
    forall i, j | 0 <= i < |s| && 0 <= j < |s| && ById()(s[i], s[j]) && ById()(s[j], s[i]) ensures s[i] == s[j] {
      CompareFlips(s[i].id, s[j].id);
      CompareZero(s[i].id, s[j].id);
    }
  }

  // ----- lookup tables ------------------------------------------------------------

  function ModelTable(models: seq<PlanModel>): map<string, PlanModel>
  {
    if models == [] then map[]
    else
      var m := models[|models| - 1];
      ModelTable(models[..|models| - 1])[m.id := m]
  }

  function NodeTable(nodes: seq<Node>): map<string, Node>
  {
    if nodes == [] then map[]
    else
      var n := nodes[|nodes| - 1];
      NodeTable(nodes[..|nodes| - 1])[n.id := n]
  }

  lemma {:induction false} NodeTableHolds(nodes: seq<Node>)
    ensures forall id :: id in NodeTable(nodes) ==> NodeTable(nodes)[id] in nodes && NodeTable(nodes)[id].id == id
    ensures forall n :: n in nodes ==> n.id in NodeTable(nodes)
    ensures UniqueIds(nodes) ==> forall n :: n in nodes ==> NodeTable(nodes)[n.id] == n
  {
    if nodes != [] {
      var init := nodes[..|nodes| - 1];
      NodeTableHolds(init);
      assert nodes == init + [nodes[|nodes| - 1]];
      if UniqueIds(nodes) {
        forall i, j | 0 <= i < |init| && 0 <= j < |init| && init[i].id == init[j].id ensures i == j {
          assert nodes[i].id == nodes[j].id;
        }
      }
    }
  }

  ghost predicate UniqueModelIds(models: seq<PlanModel>)
  {
    forall i, j :: 0 <= i < |models| && 0 <= j < |models| && models[i].id == models[j].id ==> i == j
  }

  lemma {:induction false} ModelTableHolds(models: seq<PlanModel>)
    ensures forall id :: id in ModelTable(models) ==> ModelTable(models)[id] in models && ModelTable(models)[id].id == id
    ensures forall m :: m in models ==> m.id in ModelTable(models)
    ensures UniqueModelIds(models) ==> forall m :: m in models ==> ModelTable(models)[m.id] == m
  {
    if models != [] {
      var init := models[..|models| - 1];
      ModelTableHolds(init);
      assert models == init + [models[|models| - 1]];
      if UniqueModelIds(models) {
        forall i, j | 0 <= i < |init| && 0 <= j < |init| && init[i].id == init[j].id ensures i == j {
          assert models[i].id == models[j].id;
        }
      }
    }
  }
}
