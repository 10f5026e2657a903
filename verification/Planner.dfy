/** DefaultPlanner.Plan (controller/models/planner.go): what a plan is, as
    folds over policies and nodes, and the loops that compute it. */
module Planner {
  import opened Ordering
  import opened PlannerModel

  /** What stays fixed while one plan is made: the nodes sorted by id, the
      lookup tables and the default speed threshold. */
  datatype Fleet = Fleet(nodes: seq<Node>, byNode: map<string, Node>, byModel: map<string, PlanModel>, minTokS: real)

  type Assigned = map<string, Assignment>

  function FleetOf(nodes: seq<Node>, models: seq<PlanModel>, minTokS: real): Fleet
  {
    var sorted := Sort(ById(), nodes);
    Fleet(sorted, NodeTable(sorted), ModelTable(models), minTokS)
  }

  function Row(m: PlanModel, n: Node, reason: Reason): Assignment
  {
    Assignment(n.id, m.id, reason, CtxSize(m), 1, "auto", EstRAM(m), FitsNode(m, n),
               PredictedTPS(n.genGBps, Resident(m)), PredictedTPS(n.promptGBps, Resident(m)))
  }

  /** assigned[id].ModelID == "" */
  predicate Free(a: Assigned, id: string)
  {
    id !in a || a[id].modelId == ""
  }

  // ----- policies for models that are not ready -----------------------------

  function Waiting(f: Fleet, ps: seq<Policy>): seq<Warning>
  {
    if ps == [] then []
    else
      var p := ps[|ps| - 1];
      Waiting(f, ps[..|ps| - 1]) + (if p.modelId in f.byModel then [] else [PolicyWaits(p.modelId, p.mode)])
  }

  function DefaultWaiting(f: Fleet, defaultModel: string): seq<Warning>
  {
    if defaultModel != "" && defaultModel !in f.byModel then [DefaultWaits(defaultModel)] else []
  }

  // ----- pins --------------------------------------------------------------------

  predicate ActivePin(f: Fleet, p: Policy) { p.mode.Pin? && p.modelId in f.byModel }

  function PinNode(f: Fleet, a: Assigned, p: Policy, id: string): Assigned
    requires ActivePin(f, p)
  {
    if id in f.byNode && Free(a, id) then a[f.byNode[id].id := Row(f.byModel[p.modelId], f.byNode[id], ByPin)] else a
  }

  function PinNodeWarnings(f: Fleet, a: Assigned, p: Policy, id: string): seq<Warning>
    requires ActivePin(f, p)
  {
    if id !in f.byNode then [PinNotConnected(p.modelId, id)]
    else if !Free(a, id) then [AlreadyPinned(p.modelId, id, a[id].modelId)]
    else
      var m, n := f.byModel[p.modelId], f.byNode[id];
      (if FitsNode(m, n) then [] else [PinTooBig(p.modelId, id)]) +
      (if MeetsSpeed(m, n, EffectiveMinTokS(p, f.minTokS)) then []
       else [TooSlow(m.id, n.id, PredictedTPS(n.genGBps, Resident(m)), EffectiveMinTokS(p, f.minTokS))])
  }

  function PinNodes(f: Fleet, a: Assigned, p: Policy, ids: seq<string>): Assigned
    requires ActivePin(f, p)
  {
    if ids == [] then a else PinNode(f, PinNodes(f, a, p, ids[..|ids| - 1]), p, ids[|ids| - 1])
  }

  function PinNodesWarnings(f: Fleet, a: Assigned, p: Policy, ids: seq<string>): seq<Warning>
    requires ActivePin(f, p)
  {
    if ids == [] then []
    else
      var init := ids[..|ids| - 1];
      PinNodesWarnings(f, a, p, init) + PinNodeWarnings(f, PinNodes(f, a, p, init), p, ids[|ids| - 1])
  }

  function PinPolicy(f: Fleet, a: Assigned, p: Policy): Assigned
  {
    if ActivePin(f, p) then PinNodes(f, a, p, p.nodes) else a
  }

  function PinPolicyWarnings(f: Fleet, a: Assigned, p: Policy): seq<Warning>
  {
    if ActivePin(f, p) then PinNodesWarnings(f, a, p, p.nodes) else []
  }

  function Pins(f: Fleet, ps: seq<Policy>): Assigned
  {
    if ps == [] then map[] else PinPolicy(f, Pins(f, ps[..|ps| - 1]), ps[|ps| - 1])
  }

  function PinWarnings(f: Fleet, ps: seq<Policy>): seq<Warning>
  {
    if ps == [] then []
    else
      var init := ps[..|ps| - 1];
      PinWarnings(f, init) + PinPolicyWarnings(f, Pins(f, init), ps[|ps| - 1])
  }

  // ----- replicas and percentages ------------------------------------------------

  predicate Eligible(f: Fleet, p: Policy, n: Node)
    requires p.modelId in f.byModel
  {
    var m := f.byModel[p.modelId];
    && !n.drained && MatchesClass(p.classes, n.class_) && FitsNode(m, n)
    && MeetsSpeed(m, n, EffectiveMinTokS(p, f.minTokS))
  }

  function EligibleIn(f: Fleet, p: Policy): Node -> bool
    requires p.modelId in f.byModel
  {
    (n: Node) => Eligible(f, p, n)
  }

  function EligibleFree(f: Fleet, a: Assigned, p: Policy): Node -> bool
    requires p.modelId in f.byModel
  {
    (n: Node) => Eligible(f, p, n) && Free(a, n.id)
  }

  function Pool(f: Fleet, p: Policy): nat
    requires p.modelId in f.byModel
  {
    |Filter(EligibleIn(f, p), f.nodes)|
  }

  function Want(f: Fleet, p: Policy): int
    requires p.modelId in f.byModel
  {
    if p.mode.Percent? then PercentOf(p.percent, Pool(f, p)) else p.replicas
  }

  function FreeNodes(f: Fleet, a: Assigned, p: Policy): seq<Node>
    requires p.modelId in f.byModel
  {
    Filter(EligibleFree(f, a, p), f.nodes)
  }

  function Got(f: Fleet, a: Assigned, p: Policy): nat
    requires p.modelId in f.byModel
  {
    Min(Max(Want(f, p), 0), |FreeNodes(f, a, p)|)
  }

  /** The best free eligible nodes, as many as the policy wants. */
  function Chosen(f: Fleet, a: Assigned, p: Policy): (c: seq<Node>)
    requires p.modelId in f.byModel
    ensures |c| == Got(f, a, p)
  {
    Sort(Preferred(p.modelId), FreeNodes(f, a, p))[..Got(f, a, p)]
  }

  function ReasonOf(mode: Mode): Reason
  {
    if mode.Percent? then ByPercent else ByReplicas
  }

  function AssignAll(a: Assigned, ns: seq<Node>, m: PlanModel, reason: Reason): Assigned
  {
    if ns == [] then a
    else AssignAll(a, ns[..|ns| - 1], m, reason)[ns[|ns| - 1].id := Row(m, ns[|ns| - 1], reason)]
  }

  function WhyNoFit(f: Fleet, p: Policy): NoFit
    requires p.modelId in f.byModel
  {
    if !exists n :: n in f.nodes && !n.drained && MatchesClass(p.classes, n.class_) then NoClassMatch
    else if !exists n :: n in f.nodes && !n.drained && MatchesClass(p.classes, n.class_) && FitsNode(f.byModel[p.modelId], n)
    then NotEnoughMemory
    else NotFastEnough
  }

  function Quota(f: Fleet, a: Assigned, p: Policy): Assigned
    requires p.modelId in f.byModel
  {
    AssignAll(a, Chosen(f, a, p), f.byModel[p.modelId], ReasonOf(p.mode))
  }

  function QuotaWarning(f: Fleet, a: Assigned, p: Policy): seq<Warning>
    requires p.modelId in f.byModel
  {
    if Pool(f, p) == 0 then [NoEligible(f.byModel[p.modelId].id, WhyNoFit(f, p))]
    else if Got(f, a, p) < Want(f, p) then [Shortfall(f.byModel[p.modelId].id, Want(f, p), Got(f, a, p))]
    else []
  }

  ghost predicate Ready(f: Fleet, ps: seq<Policy>)
  {
    forall p :: p in ps ==> p.modelId in f.byModel
  }

  function Quotas(f: Fleet, a: Assigned, ps: seq<Policy>): Assigned
    requires Ready(f, ps)
  {
    if ps == [] then a else Quota(f, Quotas(f, a, ps[..|ps| - 1]), ps[|ps| - 1])
  }

  function QuotaWarnings(f: Fleet, a: Assigned, ps: seq<Policy>): seq<Warning>
    requires Ready(f, ps)
  {
    if ps == [] then []
    else
      var init := ps[..|ps| - 1];
      QuotaWarnings(f, a, init) + QuotaWarning(f, Quotas(f, a, init), ps[|ps| - 1])
  }

  /** Bigger models first, then by model id. */
  function BiggerFirst(byModel: map<string, PlanModel>): (Policy, Policy) -> bool
  {
    (a: Policy, b: Policy) =>
      var sa, sb := Size(byModel, a.modelId), Size(byModel, b.modelId);
      sa > sb || (sa == sb && Compare(a.modelId, b.modelId) <= 0)
  }

  function Size(byModel: map<string, PlanModel>, id: string): int
  {
    if id in byModel then EstRAM(byModel[id]) else 0
  }

  function ReadyIn(byModel: map<string, PlanModel>, mode: Mode): Policy -> bool
  {
    (p: Policy) => p.modelId in byModel && p.mode == mode
  }

  function Turn(f: Fleet, ps: seq<Policy>, mode: Mode): (r: seq<Policy>)
    ensures Ready(f, r)
    ensures forall p :: p in r <==> p in ps && p.modelId in f.byModel && p.mode == mode
  {
    var r := Sort(BiggerFirst(f.byModel), Filter(ReadyIn(f.byModel, mode), ps));
    SameElements(r, Filter(ReadyIn(f.byModel, mode), ps));
    r
  }

  /** The policies in the order they pick: replicas, then percentages. */
  function Turns(f: Fleet, ps: seq<Policy>): (r: seq<Policy>)
    ensures Ready(f, r)
    ensures forall p :: p in r <==> p in ps && p.modelId in f.byModel && (p.mode.Replicas? || p.mode.Percent?)
  {
    Turn(f, ps, Replicas) + Turn(f, ps, Percent)
  }

  // ----- default model, else keep ----------------------------------------------

  predicate TakesDefault(f: Fleet, defaultModel: string, a: Assigned, n: Node)
  {
    && n.id !in a && defaultModel in f.byModel && !n.drained
    && FitsNode(f.byModel[defaultModel], n) && MeetsSpeed(f.byModel[defaultModel], n, f.minTokS)
  }

  function KeepRow(f: Fleet, n: Node): Assignment
  {
    var reason := if n.currentModel == "" then NoModel else Keep;
    if n.currentModel in f.byModel then
      var cur := f.byModel[n.currentModel];
      Assignment(n.id, n.currentModel, reason, CtxSize(cur), 1, "auto", EstRAM(cur), FitsNode(cur, n), 0.0, 0.0)
    else Assignment(n.id, n.currentModel, reason, 0, 0, "", 0, true, 0.0, 0.0)
  }

  function FinalRow(f: Fleet, defaultModel: string, a: Assigned, n: Node): Assignment
  {
    if n.id in a then a[n.id]
    else if TakesDefault(f, defaultModel, a, n) then Row(f.byModel[defaultModel], n, ByDefault)
    else KeepRow(f, n)
  }

  predicate DefaultDoesNotFit(f: Fleet, defaultModel: string, a: Assigned, n: Node)
  {
    n.id !in a && defaultModel in f.byModel && !n.drained && !FitsNode(f.byModel[defaultModel], n)
  }

  predicate DefaultTooSlow(f: Fleet, defaultModel: string, a: Assigned, n: Node)
  {
    && n.id !in a && defaultModel in f.byModel && !n.drained && FitsNode(f.byModel[defaultModel], n)
    && !MeetsSpeed(f.byModel[defaultModel], n, f.minTokS)
  }

  function FinalRows(f: Fleet, defaultModel: string, a: Assigned, ns: seq<Node>): (r: seq<Assignment>)
    ensures |r| == |ns|
    ensures forall i :: 0 <= i < |ns| ==> r[i] == FinalRow(f, defaultModel, a, ns[i])
  {
    seq(|ns|, i requires 0 <= i < |ns| => FinalRow(f, defaultModel, a, ns[i]))
  }

  function TooSmall(f: Fleet, defaultModel: string, a: Assigned, ns: seq<Node>): seq<string>
  {
    if ns == [] then []
    else
      var n := ns[|ns| - 1];
      TooSmall(f, defaultModel, a, ns[..|ns| - 1]) + (if DefaultDoesNotFit(f, defaultModel, a, n) then [n.id] else [])
  }

  function SlowDefault(f: Fleet, defaultModel: string, a: Assigned, n: Node): seq<Warning>
  {
    if DefaultTooSlow(f, defaultModel, a, n) then
      var dm := f.byModel[defaultModel];
      [TooSlow(dm.id, n.id, PredictedTPS(n.genGBps, Resident(dm)), f.minTokS)]
    else []
  }

  function SlowDefaults(f: Fleet, defaultModel: string, a: Assigned, ns: seq<Node>): seq<Warning>
  {
    if ns == [] then []
    else SlowDefaults(f, defaultModel, a, ns[..|ns| - 1]) + SlowDefault(f, defaultModel, a, ns[|ns| - 1])
  }

  function TooBigDefault(f: Fleet, defaultModel: string, tooSmall: seq<string>): seq<Warning>
  {
    if tooSmall != [] && defaultModel in f.byModel then [DefaultTooBig(f.byModel[defaultModel].id, tooSmall)] else []
  }

  // ----- the plan -----------------------------------------------------------------

  function AllAssigned(f: Fleet, ps: seq<Policy>): Assigned
  {
    Quotas(f, Pins(f, ps), Turns(f, ps))
  }

  function AllWarnings(f: Fleet, spec: Spec): seq<Warning>
  {
    var pins, turns := Pins(f, spec.policies), Turns(f, spec.policies);
    var a := Quotas(f, pins, turns);
    Waiting(f, spec.policies) + DefaultWaiting(f, spec.defaultModel) + PinWarnings(f, spec.policies)
    + QuotaWarnings(f, pins, turns) + SlowDefaults(f, spec.defaultModel, a, f.nodes)
    + TooBigDefault(f, spec.defaultModel, TooSmall(f, spec.defaultModel, a, f.nodes))
  }

  function PlanIn(f: Fleet, spec: Spec): Plan
  {
    Plan(FinalRows(f, spec.defaultModel, AllAssigned(f, spec.policies), f.nodes), AllWarnings(f, spec))
  }

  /** The plan DefaultPlanner{minTokS} makes; the method MakePlan computes it. */
  function PlanOf(spec: Spec, nodes: seq<Node>, models: seq<PlanModel>, minTokS: real): Plan
  {
    PlanIn(FleetOf(nodes, models, minTokS), spec)
  }

  // ----- the loops ----------------------------------------------------------------

  method NoFitReason(f: Fleet, p: Policy) returns (why: NoFit)
    requires p.modelId in f.byModel
    ensures why == WhyNoFit(f, p)
  {
    var sawClass, sawFit := false, false;
    var i := 0;
    while i < |f.nodes|
      invariant 0 <= i <= |f.nodes|
      invariant sawClass <==> exists n :: n in f.nodes[..i] && !n.drained && MatchesClass(p.classes, n.class_)
      invariant sawFit <==> exists n :: n in f.nodes[..i] && !n.drained && MatchesClass(p.classes, n.class_) && FitsNode(f.byModel[p.modelId], n)
    {
      var n := f.nodes[i];
      assert f.nodes[..i + 1] == f.nodes[..i] + [n];
      if !n.drained && MatchesClass(p.classes, n.class_) {
        sawClass := true;
        if FitsNode(f.byModel[p.modelId], n) { sawFit := true; }
      }
      i := i + 1;
    }
    assert f.nodes[..i] == f.nodes;
    why := if !sawClass then NoClassMatch else if !sawFit then NotEnoughMemory else NotFastEnough;
  }

  /** One node of a pin. */
  method PinStep(f: Fleet, a0: Assigned, p: Policy, id: string) returns (a: Assigned, told: seq<Warning>)
    requires ActivePin(f, p)
    ensures a == PinNode(f, a0, p, id) && told == PinNodeWarnings(f, a0, p, id)
  {
    hide FitsNode, Row, MeetsSpeed, PredictedTPS;
    a, told := a0, [];
    if id !in f.byNode {
      told := [PinNotConnected(p.modelId, id)];
    } else if !Free(a, id) {
      told := [AlreadyPinned(p.modelId, id, a[id].modelId)];
    } else {
      var m, n := f.byModel[p.modelId], f.byNode[id];
      if !FitsNode(m, n) { told := [PinTooBig(p.modelId, id)]; }
      var threshold := EffectiveMinTokS(p, f.minTokS);
      if !MeetsSpeed(m, n, threshold) {
        told := told + [TooSlow(m.id, n.id, PredictedTPS(n.genGBps, Resident(m)), threshold)];
      }
      a := a[n.id := Row(m, n, ByPin)];
    }
  }

  method PinPolicyLoop(f: Fleet, a0: Assigned, p: Policy) returns (a: Assigned, warnings: seq<Warning>)
    requires ActivePin(f, p)
    ensures a == PinNodes(f, a0, p, p.nodes) && warnings == PinNodesWarnings(f, a0, p, p.nodes)
  {
    hide PinNode, PinNodeWarnings;
    a, warnings := a0, [];
    for k := 0 to |p.nodes|
      invariant a == PinNodes(f, a0, p, p.nodes[..k])
      invariant warnings == PinNodesWarnings(f, a0, p, p.nodes[..k])
    {
      assert p.nodes[..k + 1][..k] == p.nodes[..k];
      var told;
      a, told := PinStep(f, a, p, p.nodes[k]);
      warnings := warnings + told;
    }
    assert p.nodes[..|p.nodes|] == p.nodes;
  }

  method PinLoop(f: Fleet, ps: seq<Policy>) returns (a: Assigned, warnings: seq<Warning>)
    ensures a == Pins(f, ps) && warnings == PinWarnings(f, ps)
  {
    a, warnings := map[], [];
    for i := 0 to |ps|
      invariant a == Pins(f, ps[..i]) && warnings == PinWarnings(f, ps[..i])
    {
      var p := ps[i];
      assert ps[..i + 1][..i] == ps[..i];
      if ActivePin(f, p) {
        var a', told := PinPolicyLoop(f, a, p);
        a, warnings := a', warnings + told;
      }
    }
    assert ps[..|ps|] == ps;
  }

  method CountPool(f: Fleet, p: Policy) returns (pool: nat)
    requires p.modelId in f.byModel
    ensures pool == Pool(f, p)
  {
    pool := 0;
    for i := 0 to |f.nodes|
      invariant pool == |Filter(EligibleIn(f, p), f.nodes[..i])|
    {
      FilterStep(EligibleIn(f, p), f.nodes, i);
      if Eligible(f, p, f.nodes[i]) { pool := pool + 1; }
    }
    assert f.nodes[..|f.nodes|] == f.nodes;
  }

  method CollectFree(f: Fleet, a: Assigned, p: Policy) returns (free: seq<Node>)
    requires p.modelId in f.byModel
    ensures free == FreeNodes(f, a, p)
  {
    free := [];
    for i := 0 to |f.nodes|
      invariant free == Filter(EligibleFree(f, a, p), f.nodes[..i])
    {
      FilterStep(EligibleFree(f, a, p), f.nodes, i);
      if Eligible(f, p, f.nodes[i]) && Free(a, f.nodes[i].id) { free := free + [f.nodes[i]]; }
    }
    assert f.nodes[..|f.nodes|] == f.nodes;
  }

  method AssignLoop(a0: Assigned, ns: seq<Node>, m: PlanModel, reason: Reason) returns (a: Assigned)
    ensures a == AssignAll(a0, ns, m, reason)
  {
    hide Row;
    a := a0;
    for k := 0 to |ns|
      invariant a == AssignAll(a0, ns[..k], m, reason)
    {
      assert ns[..k + 1][..k] == ns[..k];
      a := a[ns[k].id := Row(m, ns[k], reason)];
    }
    assert ns[..|ns|] == ns;
  }

  method QuotaStep(f: Fleet, a0: Assigned, p: Policy) returns (a: Assigned, warnings: seq<Warning>)
    requires p.modelId in f.byModel
    requires p.mode.Replicas? || p.mode.Percent?
    requires p.mode.Replicas? ==> p.replicas >= 0
    ensures a == Quota(f, a0, p) && warnings == QuotaWarning(f, a0, p)
  {
    hide Eligible, Row, Sort;
    a, warnings := a0, [];
    var m := f.byModel[p.modelId];
    var pool := CountPool(f, p);
    var want := p.replicas;
    if p.mode.Percent? { want := PercentOf(p.percent, pool); }
    if pool == 0 {
      var why := NoFitReason(f, p);
      warnings := [NoEligible(m.id, why)];
      NobodyChosen(f, a0, p);
      return;
    }
    var free := CollectFree(f, a0, p);
    var sorted := Sort(Preferred(p.modelId), free);
    var got := Min(want, |free|);
    a := AssignLoop(a0, sorted[..got], m, ReasonOf(p.mode));
    if got < want { warnings := [Shortfall(m.id, want, got)]; }
  }

  lemma FirstIsMember<T>(s: seq<T>)
    ensures s != [] ==> s[0] in s
  {
  }

  lemma NobodyChosen(f: Fleet, a: Assigned, p: Policy)
    requires p.modelId in f.byModel && Pool(f, p) == 0
    ensures Chosen(f, a, p) == []
  {
    var free := FreeNodes(f, a, p);
    FirstIsMember(free);
    assert forall n :: n in free ==> n in Filter(EligibleIn(f, p), f.nodes);
  }

  /** replicas of a spec that passed Validate is at least 1; a negative count
      is the only input that free[:got] does not accept. */
  ghost predicate NoNegativeReplicas(ps: seq<Policy>)
  {
    forall p :: p in ps && p.mode.Replicas? ==> p.replicas >= 0
  }

  method QuotaLoop(f: Fleet, a0: Assigned, turns: seq<Policy>) returns (a: Assigned, warnings: seq<Warning>)
    requires Ready(f, turns) && NoNegativeReplicas(turns)
    requires forall p :: p in turns ==> p.mode.Replicas? || p.mode.Percent?
    ensures a == Quotas(f, a0, turns) && warnings == QuotaWarnings(f, a0, turns)
  {
    hide Quota, QuotaWarning;
    a, warnings := a0, [];
    for i := 0 to |turns|
      invariant a == Quotas(f, a0, turns[..i]) && warnings == QuotaWarnings(f, a0, turns[..i])
    {
      assert turns[..i + 1][..i] == turns[..i];
      var a', told := QuotaStep(f, a, turns[i]);
      a, warnings := a', warnings + told;
    }
    assert turns[..|turns|] == turns;
  }

  method MakeFleet(nodes0: seq<Node>, models: seq<PlanModel>, minTokS: real) returns (f: Fleet)
    ensures f == FleetOf(nodes0, models, minTokS)
  {
    var nodes := Sort(ById(), nodes0);
    var byModel: map<string, PlanModel> := map[];
    for i := 0 to |models|
      invariant byModel == ModelTable(models[..i])
    {
      assert models[..i + 1][..i] == models[..i];
      byModel := byModel[models[i].id := models[i]];
    }
    assert models[..|models|] == models;
    var byNode: map<string, Node> := map[];
    for i := 0 to |nodes|
      invariant byNode == NodeTable(nodes[..i])
    {
      assert nodes[..i + 1][..i] == nodes[..i];
      byNode := byNode[nodes[i].id := nodes[i]];
    }
    assert nodes[..|nodes|] == nodes;
    f := Fleet(nodes, byNode, byModel, minTokS);
  }

  method WaitLoop(f: Fleet, spec: Spec) returns (warnings: seq<Warning>)
    ensures warnings == Waiting(f, spec.policies) + DefaultWaiting(f, spec.defaultModel)
  {
    var ps := spec.policies;
    warnings := [];
    for i := 0 to |ps|
      invariant warnings == Waiting(f, ps[..i])
    {
      assert ps[..i + 1][..i] == ps[..i];
      if ps[i].modelId !in f.byModel { warnings := warnings + [PolicyWaits(ps[i].modelId, ps[i].mode)]; }
    }
    assert ps[..|ps|] == ps;
    if spec.defaultModel != "" && spec.defaultModel !in f.byModel { warnings := warnings + [DefaultWaits(spec.defaultModel)]; }
  }

  /** The default-or-keep decision for one node. */
  method FinalStep(f: Fleet, defaultModel: string, a: Assigned, n: Node) returns (row: Assignment, slow: seq<Warning>, small: seq<string>)
    ensures row == FinalRow(f, defaultModel, a, n)
    ensures slow == SlowDefault(f, defaultModel, a, n)
    ensures small == if DefaultDoesNotFit(f, defaultModel, a, n) then [n.id] else []
  {
    row, slow, small := if n.id in a then a[n.id] else KeepRow(f, n), [], [];
    if n.id !in a && defaultModel in f.byModel && !n.drained {
      var dm := f.byModel[defaultModel];
      if !FitsNode(dm, n) {
        small := [n.id];
      } else if !MeetsSpeed(dm, n, f.minTokS) {
        slow := [TooSlow(dm.id, n.id, PredictedTPS(n.genGBps, Resident(dm)), f.minTokS)];
      } else {
        row := Row(dm, n, ByDefault);
      }
    }
  }

  method FinalLoop(f: Fleet, defaultModel: string, a: Assigned) returns (rows: seq<Assignment>, slow: seq<Warning>, tooSmall: seq<string>)
    ensures rows == FinalRows(f, defaultModel, a, f.nodes)
    ensures slow == SlowDefaults(f, defaultModel, a, f.nodes)
    ensures tooSmall == TooSmall(f, defaultModel, a, f.nodes)
  {
    hide FinalRow, SlowDefault, DefaultDoesNotFit;
    rows, slow, tooSmall := [], [], [];
    for i := 0 to |f.nodes|
      invariant |rows| == i && forall j :: 0 <= j < i ==> rows[j] == FinalRow(f, defaultModel, a, f.nodes[j])
      invariant slow == SlowDefaults(f, defaultModel, a, f.nodes[..i])
      invariant tooSmall == TooSmall(f, defaultModel, a, f.nodes[..i])
    {
      assert f.nodes[..i + 1][..i] == f.nodes[..i];
      var row, s, t := FinalStep(f, defaultModel, a, f.nodes[i]);
      rows, slow, tooSmall := rows + [row], slow + s, tooSmall + t;
    }
    assert f.nodes[..|f.nodes|] == f.nodes;
  }

  lemma {:induction false} NeedsDefault(f: Fleet, defaultModel: string, a: Assigned, ns: seq<Node>)
    ensures TooSmall(f, defaultModel, a, ns) != [] ==> defaultModel in f.byModel
  {
    if ns != [] { NeedsDefault(f, defaultModel, a, ns[..|ns| - 1]); }
  }

  method MakePlan(spec: Spec, nodes: seq<Node>, models: seq<PlanModel>, minTokS: real) returns (plan: Plan)
    requires NoNegativeReplicas(spec.policies)
    ensures plan == PlanOf(spec, nodes, models, minTokS)
  {
    var f := MakeFleet(nodes, models, minTokS);
    plan := PlanLoops(f, spec);
  }

  method PlanLoops(f: Fleet, spec: Spec) returns (plan: Plan)
    requires NoNegativeReplicas(spec.policies)
    ensures plan == PlanIn(f, spec)
  {
    var turns := Turns(f, spec.policies);
    var waiting := WaitLoop(f, spec);
    var pins, pinWarnings := PinLoop(f, spec.policies);
    var a, quotaWarnings := QuotaLoop(f, pins, turns);
    var rows, slow, tooSmall := FinalLoop(f, spec.defaultModel, a);
    NeedsDefault(f, spec.defaultModel, a, f.nodes);
    var big: seq<Warning> := [];
    if tooSmall != [] { big := [DefaultTooBig(f.byModel[spec.defaultModel].id, tooSmall)]; }
    plan := Plan(rows, waiting + pinWarnings + quotaWarnings + slow + big);
  }
}
