/** Exactly when plans flap: a plan changes while nodes act on it if and only if
    it is exposed, and a spec can make an exposed plan if and only if its
    default model has a quota that may leave nodes to the default. */
module PlannerFlap {
  import opened Ordering
  import opened PlannerModel
  import opened Planner
  import opened PlannerFacts
  import opened PlannerSound
  import opened PlannerStable
  import MemPlan

  // ----- an exposed plan flaps --------------------------------------------------------------

  /** n one heartbeat later: it knows what it was given, and has switched if it
      is the one node that has. */
  ghost function Later(plan: Plan, n: Node, switched: string, m: string): Node
  {
    n.(assignedModel := Given(plan, n.id), currentModel := if n.id == switched then m else n.currentModel)
  }

  ghost function Given(plan: Plan, id: string): string
  {
    if exists r :: r in plan.rows && r.nodeId == id then
      var r :| r in plan.rows && r.nodeId == id;
      if Assigning(r.reason) then r.modelId else ""
    else ""
  }

  ghost function LaterAll(plan: Plan, nodes: seq<Node>, switched: string, m: string): (r: seq<Node>)
    ensures |r| == |nodes| && forall i :: 0 <= i < |nodes| ==> r[i] == Later(plan, nodes[i], switched, m)
  {
    seq(|nodes|, i requires 0 <= i < |nodes| => Later(plan, nodes[i], switched, m))
  }

  lemma LaterBeats(f: Fleet, spec: Spec, n: Node, y: Node, m: string)
    requires FleetOk(f) && n in f.nodes && y in f.nodes && y.id in Holders(PlanIn(f, spec), m, ByDefault)
    ensures Beat(PlanIn(f, spec), n, Later(PlanIn(f, spec), n, y.id, m))
  {
    hide PlanIn, FinalRow, AllAssigned;
    RowOf(f, spec, n);
    var plan, row := PlanIn(f, spec), FinalRow(f, spec.defaultModel, AllAssigned(f, spec.policies), n);
    var n' := Later(plan, n, y.id, m);
    assert Given(plan, n.id) == if Assigning(row.reason) then row.modelId else "";
    if n.id == y.id { HolderRow(f, spec, n, m, ByDefault); }
    forall r | r in plan.rows && r.nodeId == n.id ensures Moves(r, n, n') { assert r == row; }
  }

  /** In an exposed plan the turn of the default model chooses other nodes when
      only the overtaking node has switched. */
  lemma ChoiceChanges(f: Fleet, f': Fleet, spec: Spec, i: nat, x: Node, y: Node)
    requires i < |Turns(f, spec.policies)| && Turns(f, spec.policies)[i] in Turns(f, spec.policies)
    requires Next(PlanIn(f, spec), f, f') && OneQuotaPerModel(spec.policies)
    requires Exposes(f, spec, Turns(f, spec.policies)[i], x, y)
    requires forall n :: n in f.nodes ==> Later(PlanIn(f, spec), n, y.id, spec.defaultModel) in f'.nodes
    ensures var p, a := Turns(f, spec.policies)[i], Quotas(f, Pins(f, spec.policies), Turns(f, spec.policies)[..i]);
            Ids(Chosen(f, a, p)) != Ids(Chosen(f', a, p))
  {
    hide Turns, Pins, Quotas, Eligible, Chosen, FreeNodes, AllAssigned, FinalRow, PlanIn, PreferFor, Beat, Takes, Holders, Risky, Feedback, GoodRows;
    var ts, pins, plan := Turns(f, spec.policies), Pins(f, spec.policies), PlanIn(f, spec);
    var p, a := ts[i], Quotas(f, pins, ts[..i]);
    AssignedGood(f, spec.policies);
    QuotasGood(f, pins, ts, i);
    ExposedPair(f, spec, i, x, y);
    SameOffer(plan, f, f', a, p);
    ChosenFacts(f', a, p);
    var x', y' := Later(plan, x, y.id, p.modelId), Later(plan, y, y.id, p.modelId);
    LaterInFree(plan, f, f', a, p, x, y.id, p.modelId);
    LaterInFree(plan, f, f', a, p, y, y.id, p.modelId);
    GivenIs(f, spec, x, p.modelId, ReasonOf(p.mode));
    GivenIs(f, spec, y, p.modelId, ByDefault);
    RiskyPair(p.modelId, x, y, x', y');
    if Ids(Chosen(f, a, p)) == Ids(Chosen(f', a, p)) {
      ChosenById(f, a, p, x);
      ChosenById(f, a, p, y);
      ChosenById(f', a, p, x');
      ChosenById(f', a, p, y');
      assert false;
    }
  }

  lemma ChosenById(f: Fleet, a: Assigned, p: Policy, n: Node)
    requires FleetOk(f) && p.modelId in f.byModel && n in FreeNodes(f, a, p)
    ensures n in Chosen(f, a, p) <==> n.id in Ids(Chosen(f, a, p))
  {
    hide Chosen;
    ChosenFacts(f, a, p);
    if n.id in Ids(Chosen(f, a, p)) {
      var c :| c in Chosen(f, a, p) && c.id == n.id;
      SameIdSameNode(FreeNodes(f, a, p), c, n);
    }
  }

  /** x is chosen by the turn, y is free and left. */
  lemma ExposedPair(f: Fleet, spec: Spec, i: nat, x: Node, y: Node)
    requires FleetOk(f) && OneQuotaPerModel(spec.policies)
    requires i < |Turns(f, spec.policies)| && Turns(f, spec.policies)[i] in Turns(f, spec.policies)
    requires Exposes(f, spec, Turns(f, spec.policies)[i], x, y)
    ensures var p, a := Turns(f, spec.policies)[i], Quotas(f, Pins(f, spec.policies), Turns(f, spec.policies)[..i]);
            && x in Chosen(f, a, p) && x in FreeNodes(f, a, p) && y in FreeNodes(f, a, p) && y !in Chosen(f, a, p) && x.id != y.id
  {
    hide Turns, Pins, Quotas, Eligible, Chosen, FreeNodes, AllAssigned, FinalRow, PlanIn, Risky;
    var ts, pins := Turns(f, spec.policies), Pins(f, spec.policies);
    var p, a := ts[i], Quotas(f, pins, ts[..i]);
    AssignedGood(f, spec.policies);
    QuotasGood(f, pins, ts, i);
    HeldIsChosen(f, spec, i);
    ChosenFacts(f, a, p);
    FreeIs(f, a, p, x);
    FreeIs(f, a, p, y);
    TakesIsId(f, a, p, x.id);
    HolderRow(f, spec, x, p.modelId, ReasonOf(p.mode));
    HolderRow(f, spec, y, p.modelId, ByDefault);
    DefaultIsFree(f, spec, i, y);
    if y in Chosen(f, a, p) { RowAgrees(f, spec, i, y); }
  }

  /** A node with a default row was free at every turn. */
  lemma DefaultIsFree(f: Fleet, spec: Spec, i: nat, y: Node)
    requires FleetOk(f) && i <= |Turns(f, spec.policies)| && y in f.nodes
    requires FinalRow(f, spec.defaultModel, AllAssigned(f, spec.policies), y).reason == ByDefault
    ensures y.id !in Quotas(f, Pins(f, spec.policies), Turns(f, spec.policies)[..i])
  {
    hide Turns, Pins, Quotas, Eligible, FitsNode, MeetsSpeed, EstRAM, PredictedTPS;
    var ts, pins := Turns(f, spec.policies), Pins(f, spec.policies);
    AssignedGood(f, spec.policies);
    TurnsKeep(f, pins, ts, i, |ts|);
    assert ts[..|ts|] == ts;
    if y.id in AllAssigned(f, spec.policies) {
      AssignedFrom(f, spec.policies, y.id);
    }
  }

  lemma LaterInFree(plan: Plan, f: Fleet, f': Fleet, a: Assigned, p: Policy, n: Node, switched: string, m: string)
    requires FleetOk(f) && FleetOk(f') && f.byModel == f'.byModel && f.minTokS == f'.minTokS && p.modelId in f.byModel
    requires n in FreeNodes(f, a, p) && Later(plan, n, switched, m) in f'.nodes
    ensures Later(plan, n, switched, m) in FreeNodes(f', a, p)
  {
    hide FitsNode, MeetsSpeed, MatchesClass, Given;
    var n' := Later(plan, n, switched, m);
    SamePhoneSameRow(f.byModel[p.modelId], n, n', ByPin, EffectiveMinTokS(p, f.minTokS));
  }

  lemma GivenIs(f: Fleet, spec: Spec, n: Node, m: string, reason: Reason)
    requires FleetOk(f) && n in f.nodes && n.id in Holders(PlanIn(f, spec), m, reason) && Assigning(reason)
    ensures Given(PlanIn(f, spec), n.id) == m
  {
    hide PlanIn, FinalRow, AllAssigned;
    RowOf(f, spec, n);
    HolderRow(f, spec, n, m, reason);
  }

  lemma ExposedFlaps(f: Fleet, f': Fleet, spec: Spec, p: Policy, x: Node, y: Node)
    requires Next(PlanIn(f, spec), f, f') && OneQuotaPerModel(spec.policies)
    requires p in spec.policies && IsQuota(p) && Exposes(f, spec, p, x, y)
    requires forall n :: n in f.nodes ==> Later(PlanIn(f, spec), n, y.id, spec.defaultModel) in f'.nodes
    ensures PlanIn(f', spec) != PlanIn(f, spec)
  {
    var ts := Turns(f, spec.policies);
    assert Turns(f', spec.policies) == ts && p in ts;
    hide Turns, Pins, Quotas, Eligible, Chosen, PlanIn, Holders, Risky, Feedback, FleetOk, OneQuotaPerModel, ExposedIn;
    var i :| 0 <= i < |ts| && ts[i] == p;
    TurnsOnce(f, spec.policies);
    assert forall k :: 0 <= k < i ==> ts[k].modelId != spec.defaultModel;
    SameQuotas(spec, f, f', i);
    SamePins(PlanIn(f, spec), f, f', spec.policies);
    ChoiceChanges(f, f', spec, i, x, y);
    HeldIsChosen(f, spec, i);
    HeldIsChosen(f', spec, i);
  }

  lemma ExposedPlanChanges(spec: Spec, nodes: seq<Node>, models: seq<PlanModel>, minTokS: real) returns (nodes': seq<Node>)
    requires UniqueIds(nodes) && NamedModels(models)
    requires OneQuotaPerModel(spec.policies) && Exposed(spec, nodes, models, minTokS)
    ensures Feedback(PlanOf(spec, nodes, models, minTokS), nodes, nodes')
    ensures PlanOf(spec, nodes', models, minTokS) != PlanOf(spec, nodes, models, minTokS)
  {
    hide PlanIn, Eligible, Risky, Holders, Later, Beat, OneQuotaPerModel;
    var f, plan := FleetOf(nodes, models, minTokS), PlanOf(spec, nodes, models, minTokS);
    FleetOfOk(nodes, models, minTokS);
    var p, x, y :| p in spec.policies && IsQuota(p) && Exposes(f, spec, p, x, y);
    nodes' := LaterAll(plan, nodes, y.id, spec.defaultModel);
    forall i | 0 <= i < |nodes| ensures Beat(plan, nodes[i], nodes'[i]) {
      assert nodes[i] in f.nodes;
      LaterBeats(f, spec, nodes[i], y, spec.defaultModel);
    }
    NextFleet(plan, nodes, nodes', models, minTokS);
    FleetOfOk(nodes', models, minTokS);
    var f' := FleetOf(nodes', models, minTokS);
    forall n | n in f.nodes ensures Later(plan, n, y.id, spec.defaultModel) in f'.nodes {
      var k :| 0 <= k < |nodes| && nodes[k] == n;
      assert nodes'[k] in nodes';
    }
    hide FleetOf;
    ExposedFlaps(f, f', spec, p, x, y);
  }

  /** Acting on a plan keeps it if and only if the plan is not exposed. */
  lemma FlapsExactlyWhenExposed(spec: Spec, nodes: seq<Node>, models: seq<PlanModel>, minTokS: real)
    requires UniqueIds(nodes) && NamedModels(models) && OneQuotaPerModel(spec.policies)
    ensures (forall nodes' :: Feedback(PlanOf(spec, nodes, models, minTokS), nodes, nodes')
               ==> PlanOf(spec, nodes', models, minTokS) == PlanOf(spec, nodes, models, minTokS))
            <==> !Exposed(spec, nodes, models, minTokS)
  {
    hide PlanOf, Feedback, Exposed, OneQuotaPerModel, UniqueIds;
    if Exposed(spec, nodes, models, minTokS) {
      var nodes' := ExposedPlanChanges(spec, nodes, models, minTokS);
    } else {
      forall nodes' | Feedback(PlanOf(spec, nodes, models, minTokS), nodes, nodes')
        ensures PlanOf(spec, nodes', models, minTokS) == PlanOf(spec, nodes, models, minTokS)
      {
        PlanDoesNotFlap(spec, nodes, nodes', models, minTokS);
      }
    }
  }

  /** Over runs: the first plan is made at every replan of every run if and only
      if it is not exposed. */
  lemma RunsAreStableExactly(spec: Spec, nodes: seq<Node>, models: seq<PlanModel>, minTokS: real)
    requires UniqueIds(nodes) && NamedModels(models) && OneQuotaPerModel(spec.policies)
    ensures (forall history, k :: Run(spec, history, models, minTokS) && 0 <= k < |history| && history[0] == nodes
               ==> PlanOf(spec, history[k], models, minTokS) == PlanOf(spec, nodes, models, minTokS))
            <==> !Exposed(spec, nodes, models, minTokS)
  {
    hide PlanOf, Feedback, Exposed, OneQuotaPerModel, UniqueIds;
    if Exposed(spec, nodes, models, minTokS) {
      var nodes' := ExposedPlanChanges(spec, nodes, models, minTokS);
      var history := [nodes, nodes'];
      assert Run(spec, history, models, minTokS) && history[1] == nodes';
    } else {
      hide Run;
      forall history, k | Run(spec, history, models, minTokS) && 0 <= k < |history| && history[0] == nodes
        ensures PlanOf(spec, history[k], models, minTokS) == PlanOf(spec, nodes, models, minTokS)
      {
        PlanIsFixedPoint(spec, history, models, minTokS, k);
      }
    }
  }

  /** The default model has no replicas or percent policy of its own, or one
      that takes every node it can. */
  ghost predicate DefaultTakesAll(spec: Spec)
  {
    forall p :: p in spec.policies && IsQuota(p) && p.modelId == spec.defaultModel ==> p.mode.Percent? && p.percent == 100.0
  }

  /** Such a spec makes no exposed plan, whatever the fleet. */
  lemma TakesAllIsUnexposed(f: Fleet, spec: Spec)
    requires FleetOk(f) && OneQuotaPerModel(spec.policies) && DefaultTakesAll(spec)
    ensures !ExposedIn(f, spec)
  {
    hide PlanIn, Eligible, Holders, Risky, FleetOk, OneQuotaPerModel;
    if ExposedIn(f, spec) {
      var p, x, y :| p in spec.policies && IsQuota(p) && Exposes(f, spec, p, x, y);
      var ts := Turns(f, spec.policies);
      assert p in ts;
      hide Turns, ExposedIn;
      var i :| 0 <= i < |ts| && ts[i] == p;
      ExposedPair(f, spec, i, x, y);
      AllIsTaken(f, Quotas(f, Pins(f, spec.policies), ts[..i]), p, y);
      assert false;
    }
  }

  lemma AllIsTaken(f: Fleet, a: Assigned, p: Policy, y: Node)
    requires FleetOk(f) && p.modelId in f.byModel && p.mode.Percent? && p.percent == 100.0 && y in FreeNodes(f, a, p)
    ensures y in Chosen(f, a, p)
  {
    hide Eligible;
    FewerFree(f, a, p, f.nodes);
    PercentOfInPool(100.0, Pool(f, p));
    var free := FreeNodes(f, a, p);
    var s := Sort(Preferred(p.modelId), free);
    SameElements(s, free);
    SameLength(s, free);
    assert s[..|s|] == s;
  }

  lemma {:induction false} FewerFree(f: Fleet, a: Assigned, p: Policy, ns: seq<Node>)
    requires p.modelId in f.byModel
    ensures |Filter(EligibleFree(f, a, p), ns)| <= |Filter(EligibleIn(f, p), ns)|
    ensures Filter(EligibleFree(f, a, p), ns) != [] ==> |Filter(EligibleIn(f, p), ns)| > 0
  {
    hide Eligible;
    if ns != [] { FewerFree(f, a, p, ns[..|ns| - 1]); }
  }

  // ----- a fleet that flaps ------------------------------------------------------------------

  /** What Validate asks of replica counts and percentages. */
  predicate WellFormed(p: Policy)
  {
    (p.mode.Replicas? ==> p.replicas >= 1) && (p.mode.Percent? ==> 0.0 < p.percent <= 100.0)
  }

  function Wants(p: Policy, pool: nat): int { if p.mode.Percent? then PercentOf(p.percent, pool) else p.replicas }

  /** A quota that is not all of the pool leaves a node of a pool that is large
      enough. */
  lemma SomePoolIsLarger(p: Policy) returns (n: nat)
    requires IsQuota(p) && WellFormed(p) && !(p.mode.Percent? && p.percent == 100.0)
    ensures n >= 2 && 1 <= Wants(p, n) < n
  {
    if p.mode.Replicas? { return p.replicas + 1; }
    var gap := 100.0 - p.percent;
    var q := 100.0 / gap;
    Times(gap, q);
    n := q.Floor + 2;
    ShareOfMore(p.percent, gap, q, n as real);
    PercentOfInPool(p.percent, n);
  }

  lemma Times(gap: real, q: real)
    requires gap > 0.0 && q == 100.0 / gap
    ensures q * gap == 100.0 && q >= 0.0
  {
  }

  lemma ShareOfMore(percent: real, gap: real, q: real, n: real)
    requires percent + gap == 100.0 && gap > 0.0 && q * gap == 100.0 && n >= q
    ensures percent * n / 100.0 <= n - 1.0
  {
    MoreTimes(gap, q, n);
    assert percent * n == (100.0 - gap) * n == 100.0 * n - gap * n;
  }

  lemma MoreTimes(gap: real, q: real, n: real)
    requires gap > 0.0 && n >= q
    ensures gap * n >= q * gap
  {
    assert gap * n - q * gap == gap * (n - q);
  }

  function Idle(k: nat, class_: string): Node
  {
    Node(seq(k, _ => 'a'), class_, 6 * GIB, 0.0, 0.0, 0.0, "", "", false, 0)
  }

  function IdleFleet(n: nat, class_: string): (ns: seq<Node>)
    ensures |ns| == n && forall k :: 0 <= k < n ==> ns[k] == Idle(k, class_)
  {
    seq(n, k requires 0 <= k < n => Idle(k, class_))
  }

  function Small(id: string): PlanModel { PlanModel(id, 1000, 0, 2048, MemPlan.Shape(1, 1, 1)) }

  lemma IdleIds(n: nat, class_: string)
    ensures UniqueIds(IdleFleet(n, class_))
  {
    forall i, j | 0 <= i < n && 0 <= j < n && IdleFleet(n, class_)[i].id == IdleFleet(n, class_)[j].id ensures i == j {
      assert |IdleFleet(n, class_)[i].id| == i && |IdleFleet(n, class_)[j].id| == j;
    }
  }

  lemma IsTheFirst(ts: seq<Policy>, p: Policy, i: nat)
    requires OnePolicyPerModel(ts) && i < |ts| && forall q :: q in ts ==> q == p
    ensures i == 0
  {
    assert ts[i] in ts && ts[0] in ts;
  }

  lemma AllTheSame(ts: seq<Policy>, p: Policy)
    requires OnePolicyPerModel(ts) && p in ts && forall q :: q in ts ==> q == p
    ensures ts == [p]
  {
    IsTheFirst(ts, p, |ts| - 1);
  }

  /** Only the quota of the one ready model acts. */
  lemma OnlyTurn(f: Fleet, ps: seq<Policy>, p: Policy)
    requires OnePolicyPerModel(ps) && p in ps && IsQuota(p) && p.modelId in f.byModel
    requires forall m :: m in f.byModel ==> m == p.modelId
    ensures Turns(f, ps) == [p]
  {
    OnePolicyOneQuota(ps);
    TurnsOnce(f, ps);
    OnePolicyMeans(ps);
    var ts := Turns(f, ps);
    assert p in ts;
    forall q | q in ts ensures q == p { }
    hide Turns;
    AllTheSame(ts, p);
  }

  lemma NoPins(f: Fleet, ps: seq<Policy>, p: Policy)
    requires FleetOk(f) && OnePolicyPerModel(ps) && p in ps && IsQuota(p)
    requires forall m :: m in f.byModel ==> m == p.modelId
    ensures Pins(f, ps) == map[]
  {
    hide FleetOk, Pins, GoodRows, Row;
    OnePolicyMeans(ps);
    PinsFacts(f, ps);
    forall q, id | q in ps ensures !PinnedBy(f, q, id) {
      assert q.modelId == p.modelId ==> q == p;
    }
    hide PinnedBy, OnePolicyPerModel;
    forall id ensures id !in Pins(f, ps) { }
    assert Pins(f, ps) == map[];
  }

  lemma {:induction false} KeepAll(g: Node -> bool, ns: seq<Node>)
    requires forall n :: n in ns ==> g(n)
    ensures Filter(g, ns) == ns
  {
    hide Filter;
    if ns == [] {
      assert |Filter(g, ns)| == 0;
    } else {
      var init, last := ns[..|ns| - 1], ns[|ns| - 1];
      KeepAll(g, init);
      FilterSnoc(g, init, last);
      assert ns == init + [last];
    }
  }

  /** Idle phones that a policy may all use, and more of them than it wants. */
  ghost predicate Ample(f: Fleet, p: Policy)
  {
    && FleetOk(f) && p.modelId in f.byModel && f.minTokS == 0.0 && (forall m :: m in f.byModel ==> m == p.modelId)
    && (forall n :: n in f.nodes ==> Eligible(f, p, n) && n.currentModel == "")
    && 1 <= Wants(p, |f.nodes|) < |f.nodes|
  }

  lemma IdleIsEligible(f: Fleet, p: Policy, k: nat)
    requires p.modelId in f.byModel && f.byModel[p.modelId] == Small(p.modelId) && f.minTokS == 0.0
    ensures Eligible(f, p, Idle(k, ClassFor(p)))
  {
    assert EstRAM(Small(p.modelId)) <= 4 * GIB;
    assert p.classes != [] ==> p.classes[0] in p.classes;
  }

  function ClassFor(p: Policy): string { if p.classes == [] then "xs" else p.classes[0] }

  lemma IdleIsAmple(f: Fleet, p: Policy, nodes: seq<Node>)
    requires FleetOk(f) && f.byModel == map[p.modelId := Small(p.modelId)] && f.minTokS == 0.0
    requires nodes == IdleFleet(|nodes|, ClassFor(p)) && (forall n :: n in f.nodes ==> n in nodes) && |f.nodes| == |nodes|
    requires 1 <= Wants(p, |nodes|) < |nodes|
    ensures Ample(f, p)
  {
    hide Eligible, Small, Wants, ClassFor, FleetOk;
    forall x | x in f.nodes ensures Eligible(f, p, x) && x.currentModel == "" {
      var k :| 0 <= k < |nodes| && nodes[k] == x;
      IdleIsEligible(f, p, k);
    }
  }

  lemma OneModel(id: string)
    ensures ModelTable([Small(id)]) == map[id := Small(id)]
  {
    var models := [Small(id)];
    assert models[..0] == [] && models[0].id == id;
  }

  lemma AmpleFleet(p: Policy) returns (nodes: seq<Node>)
    requires IsQuota(p) && WellFormed(p) && p.modelId != "" && !(p.mode.Percent? && p.percent == 100.0)
    ensures UniqueIds(nodes) && NamedModels([Small(p.modelId)]) && Ample(FleetOf(nodes, [Small(p.modelId)], 0.0), p)
  {
    var n := SomePoolIsLarger(p);
    nodes := IdleFleet(n, ClassFor(p));
    IdleIds(n, ClassFor(p));
    var f := FleetOf(nodes, [Small(p.modelId)], 0.0);
    FleetOfOk(nodes, [Small(p.modelId)], 0.0);
    SameLength(f.nodes, nodes);
    OneModel(p.modelId);
    hide Small, Sort, UniqueIds, Wants, ClassFor, WellFormed, FleetOk, NodeTable, ModelTable, Ample, Sorted, IdleFleet;
    IdleIsAmple(f, p, nodes);
  }

  lemma AmpleWants(f: Fleet, p: Policy)
    requires Ample(f, p)
    ensures Want(f, p) == Wants(p, |f.nodes|) && FreeNodes(f, map[], p) == f.nodes && 1 <= Want(f, p) < |f.nodes|
  {
    hide Eligible, PercentOf, Filter, FleetOk;
    KeepAll(EligibleIn(f, p), f.nodes);
    KeepAll(EligibleFree(f, map[], p), f.nodes);
  }

  /** The policy holds as many phones as it wants, and those its turn chose. */
  lemma AmpleHeld(f: Fleet, spec: Spec, p: Policy)
    requires Ample(f, p) && OnePolicyPerModel(spec.policies) && p in spec.policies && IsQuota(p)
    ensures var held := Holders(PlanIn(f, spec), p.modelId, ReasonOf(p.mode));
            && held == Ids(Chosen(f, map[], p)) && held <= Ids(f.nodes) && 1 <= |held| < |f.nodes|
            && Turns(f, spec.policies) == [p] && Pins(f, spec.policies) == map[]
  {
    AmpleWants(f, p);
    OnePolicyOneQuota(spec.policies);
    OnlyTurn(f, spec.policies, p);
    NoPins(f, spec.policies, p);
    hide Turns, Pins, PlanIn, Eligible, OnePolicyPerModel, OneQuotaPerModel, Holders, Chosen, FleetOk, FreeNodes, Want, Wants, Quotas, Ids, UniqueIds, PreferFor;
    assert [p][..0] == [];
    PinsAreFirst(f, map[]);
    QuotaMet(f, spec, 0);
    HeldIsChosen(f, spec, 0);
  }

  lemma AmpleIsExposed(f: Fleet, spec: Spec, p: Policy)
    requires Ample(f, p) && OnePolicyPerModel(spec.policies) && p in spec.policies && IsQuota(p) && p.modelId == spec.defaultModel
    ensures ExposedIn(f, spec)
  {
    hide Turns, Pins, PlanIn, Eligible, OnePolicyPerModel, Holders, Chosen, Wants, Exposes, UniqueIds;
    AmpleHeld(f, spec, p);
    IdsCount(f.nodes);
    var x, y := OneInOneOut(Holders(PlanIn(f, spec), p.modelId, ReasonOf(p.mode)), f.nodes);
    LeftToDefault(f, spec, p, y);
    PairIsExposed(f, spec, p, x, y);
  }

  lemma OneInOneOut(held: set<string>, nodes: seq<Node>) returns (x: Node, y: Node)
    requires 1 <= |held| < |Ids(nodes)| && held <= Ids(nodes)
    ensures x in nodes && x.id in held && y in nodes && y.id !in held
  {
    var i :| i in held;
    assert i in Ids(nodes);
    x :| x in nodes && x.id == i;
    assert exists j :: j in Ids(nodes) && j !in held by {
      assert Ids(nodes) <= held ==> held == Ids(nodes);
    }
    var j :| j in Ids(nodes) && j !in held;
    y :| y in nodes && y.id == j;
  }

  lemma PairIsExposed(f: Fleet, spec: Spec, p: Policy, x: Node, y: Node)
    requires Ample(f, p) && p.modelId == spec.defaultModel && x in f.nodes && y in f.nodes
    requires x.id in Holders(PlanIn(f, spec), p.modelId, ReasonOf(p.mode)) && y.id in Holders(PlanIn(f, spec), p.modelId, ByDefault)
    ensures Exposes(f, spec, p, x, y)
  {
    hide PlanIn, Eligible, Holders, Wants, UniqueIds;
    assert x.currentModel == "" && y.currentModel == "" && p.modelId != "";
  }

  /** An eligible phone that the only quota leaves gets the default. */
  lemma LeftToDefault(f: Fleet, spec: Spec, p: Policy, y: Node)
    requires Ample(f, p) && Turns(f, spec.policies) == [p] && Pins(f, spec.policies) == map[] && p.modelId == spec.defaultModel
    requires y in f.nodes && y.id !in Ids(Chosen(f, map[], p))
    ensures y.id in Holders(PlanIn(f, spec), p.modelId, ByDefault)
  {
    hide Turns, Pins, PlanIn, Chosen, Holders, MatchesClass, FitsNode, EstRAM, PredictedTPS;
    TakesIsId(f, map[], p, y.id);
    QuotaFacts(f, map[], p);
    QuotasStep(f, map[], [p], 0);
    PinsAreFirst(f, map[]);
    assert [p][..0] == [] && [p][..1] == [p];
    hide Quota, Quotas;
    assert AllAssigned(f, spec.policies) == Quota(f, map[], p);
    HolderRow(f, spec, y, p.modelId, ByDefault);
  }

  // ----- main result for specs ------------------------------------------------------------------

  /** No plan of this spec, on any fleet, is changed by acting on it. */
  ghost predicate NeverFlaps(spec: Spec)
  {
    forall nodes, nodes', models, minTokS ::
      UniqueIds(nodes) && NamedModels(models) && Feedback(PlanOf(spec, nodes, models, minTokS), nodes, nodes')
      ==> PlanOf(spec, nodes', models, minTokS) == PlanOf(spec, nodes, models, minTokS)
  }

  /** A spec never flaps on any fleet if and only if its default model has no
      quota, or a quota of 100%. */
  lemma NeverFlapsExactly(spec: Spec)
    requires OnePolicyPerModel(spec.policies)
    requires forall p :: p in spec.policies ==> WellFormed(p) && p.modelId != ""
    ensures NeverFlaps(spec) <==> DefaultTakesAll(spec)
  {
    hide PlanOf, Feedback, UniqueIds, OnePolicyPerModel, WellFormed;
    OnePolicyOneQuota(spec.policies);
    if DefaultTakesAll(spec) {
      forall nodes, nodes', models, minTokS
        | UniqueIds(nodes) && NamedModels(models) && Feedback(PlanOf(spec, nodes, models, minTokS), nodes, nodes')
        ensures PlanOf(spec, nodes', models, minTokS) == PlanOf(spec, nodes, models, minTokS)
      {
        FleetOfOk(nodes, models, minTokS);
        TakesAllIsUnexposed(FleetOf(nodes, models, minTokS), spec);
        PlanDoesNotFlap(spec, nodes, nodes', models, minTokS);
      }
    } else {
      var p :| p in spec.policies && IsQuota(p) && p.modelId == spec.defaultModel && !(p.mode.Percent? && p.percent == 100.0);
      var nodes := AmpleFleet(p);
      AmpleIsExposed(FleetOf(nodes, [Small(p.modelId)], 0.0), spec, p);
      var nodes' := ExposedPlanChanges(spec, nodes, [Small(p.modelId)], 0.0);
    }
  }
}
