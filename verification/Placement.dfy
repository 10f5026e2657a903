/** The controller's placement state (controller/placement.go): benchmark
    overrides, replanning with the last plan fed back, and what a node is told
    to serve. */
module Placement {
  import opened Ordering
  import opened PlannerModel
  import opened Planner
  import opened PlannerFacts
  import opened PlannerSound
  import opened PlannerStable
  import opened Wrappers
  import MemPlan
  import A = NodeManager

  // ----- benchmark overrides ---------------------------------------------------------

  /** ks lists the overridden nodes once each, sorted. */
  ghost predicate KeyOrder(ks: seq<string>, overrides: map<string, string>)
  {
    Sorted(ByName(), ks) && Distinct(ks) && forall n :: n in ks <==> n in overrides
  }

  /** A pin per override, in front. */
  function OverridePins(overrides: map<string, string>, ks: seq<string>): (r: seq<Policy>)
    requires forall n :: n in ks ==> n in overrides
    ensures |r| == |ks|
  {
    seq(|ks|, i requires 0 <= i < |ks| => Policy(overrides[ks[i]], Pin, [ks[i]], 0, 0.0, [], 0.0))
  }

  function NotOverridden(overrides: map<string, string>): string -> bool { (n: string) => n !in overrides }

  /** p without the overridden nodes. */
  function Stripped(p: Policy, overrides: map<string, string>): (q: Policy)
    ensures q.modelId == p.modelId && q.mode == p.mode
    ensures forall id :: id in q.nodes <==> id in p.nodes && id !in overrides
  {
    p.(nodes := Filter(NotOverridden(overrides), p.nodes))
  }

  /** What is left of p: nothing, if it is a pin that has no nodes left. */
  function Strip(p: Policy, overrides: map<string, string>): seq<Policy>
  {
    if !p.mode.Pin? then [p]
    else if Stripped(p, overrides).nodes == [] then []
    else [Stripped(p, overrides)]
  }

  function StripAll(ps: seq<Policy>, overrides: map<string, string>): seq<Policy>
  {
    if ps == [] then [] else StripAll(ps[..|ps| - 1], overrides) + Strip(ps[|ps| - 1], overrides)
  }

  ghost function Overridden(spec: Spec, overrides: map<string, string>, ks: seq<string>): Spec
    requires forall n :: n in ks ==> n in overrides
  {
    Spec(OverridePins(overrides, ks) + StripAll(spec.policies, overrides), spec.defaultModel)
  }

  lemma OneQuotaSnoc(ps: seq<Policy>, p: Policy)
    requires OneQuotaPerModel(ps) && (IsQuota(p) ==> forall q :: q in ps && IsQuota(q) ==> q.modelId != p.modelId)
    ensures OneQuotaPerModel(ps + [p])
  {
  }

  lemma OneQuotaInit(ps: seq<Policy>)
    requires OneQuotaPerModel(ps) && ps != []
    ensures var init, p := ps[..|ps| - 1], ps[|ps| - 1];
            OneQuotaPerModel(init) && (IsQuota(p) ==> forall q :: q in init && IsQuota(q) ==> q.modelId != p.modelId)
  {
    var init := ps[..|ps| - 1];
    forall q | q in init && IsQuota(q) && IsQuota(ps[|ps| - 1]) ensures q.modelId != ps[|ps| - 1].modelId {
      var i :| 0 <= i < |init| && init[i] == q;
      assert ps[i] == q;
    }
  }

  /** Overrides change pins only, so they leave every model its one quota. */
  lemma {:induction false} OverriddenOneQuota(overrides: map<string, string>, front: seq<Policy>, ps: seq<Policy>)
    requires OneQuotaPerModel(ps) && forall p :: p in front ==> p.mode.Pin?
    ensures OneQuotaPerModel(front + StripAll(ps, overrides))
    ensures forall p :: p in front + StripAll(ps, overrides) && IsQuota(p) ==> p in ps
  {
    hide OneQuotaPerModel, Stripped;
    if ps == [] {
      assert front + StripAll(ps, overrides) == front;
      PinsHaveNoQuota(front);
    } else {
      var init, p := ps[..|ps| - 1], ps[|ps| - 1];
      OneQuotaInit(ps);
      OverriddenOneQuota(overrides, front, init);
      var before := front + StripAll(init, overrides);
      assert front + StripAll(ps, overrides) == before + Strip(p, overrides);
      assert before + [] == before;
      OneQuotaSnoc(before, if p.mode.Pin? then Stripped(p, overrides) else p);
    }
  }

  lemma PinsHaveNoQuota(front: seq<Policy>)
    requires forall p :: p in front ==> p.mode.Pin?
    ensures OneQuotaPerModel(front)
  {
  }

  method SortedKeys(overrides: map<string, string>) returns (ks: seq<string>)
    ensures KeyOrder(ks, overrides)
  {
    var nodes: seq<string> := [];
    var left := overrides.Keys;
    while left != {}
      invariant left <= overrides.Keys && Distinct(nodes)
      invariant forall n :: n in nodes <==> n in overrides && n !in left
      decreases |left|
    {
      var n :| n in left;
      assert Distinct(nodes + [n]);
      nodes, left := nodes + [n], left - {n};
    }
    ks := Sort(ByName(), nodes);
    ByNameIsTotal();
    SortSorts(ByName(), nodes);
    SameElements(ks, nodes);
    DistinctMultiset(nodes);
    DistinctMultiset(ks);
  }

  method WithOverrides(spec: Spec, overrides: map<string, string>) returns (out: Spec, ghost ks: seq<string>)
    ensures KeyOrder(ks, overrides) && out == Overridden(spec, overrides, ks)
  {
    var nodes := SortedKeys(overrides);
    ks := nodes;
    var policies: seq<Policy> := [];
    for i := 0 to |nodes|
      invariant |policies| == i && forall j :: 0 <= j < i ==> policies[j] == OverridePins(overrides, nodes)[j]
    {
      assert nodes[i] in nodes;
      policies := policies + [Policy(overrides[nodes[i]], Pin, [nodes[i]], 0, 0.0, [], 0.0)];
    }
    var rest := StripLoop(spec.policies, overrides);
    out := Spec(policies + rest, spec.defaultModel);
  }

  method StripOne(p: Policy, overrides: map<string, string>) returns (kept: seq<Policy>)
    ensures kept == Strip(p, overrides)
  {
    if p.mode.Pin? {
      var left := Filter(NotOverridden(overrides), p.nodes);
      if left == [] { return []; }
      return [p.(nodes := left)];
    }
    return [p];
  }

  method StripLoop(ps: seq<Policy>, overrides: map<string, string>) returns (kept: seq<Policy>)
    ensures kept == StripAll(ps, overrides)
  {
    kept := [];
    for i := 0 to |ps|
      invariant kept == StripAll(ps[..i], overrides)
    {
      var stripped := StripOne(ps[i], overrides);
      hide Strip;
      assert ps[..i + 1][..i] == ps[..i];
      kept := kept + stripped;
    }
    assert ps[..|ps|] == ps;
  }

  lemma {:induction false} StripAllFacts(ps: seq<Policy>, overrides: map<string, string>)
    ensures forall p, id :: p in StripAll(ps, overrides) && p.mode.Pin? && id in p.nodes ==> id !in overrides
    ensures forall p :: p in StripAll(ps, overrides) && !p.mode.Pin? ==> p in ps
  {
    if ps != [] { StripAllFacts(ps[..|ps| - 1], overrides); }
  }

  /** The override's own pin is the only one naming an overridden node. */
  lemma OnlyOverridePins(spec: Spec, overrides: map<string, string>, ks: seq<string>, p: Policy, id: string)
    requires KeyOrder(ks, overrides) && id in overrides
    requires p in Overridden(spec, overrides, ks).policies && p.mode.Pin? && id in p.nodes
    ensures p.modelId == overrides[id]
  {
    StripAllFacts(spec.policies, overrides);
    var pins := OverridePins(overrides, ks);
    if p in pins {
      var i :| 0 <= i < |pins| && pins[i] == p;
      assert p.nodes == [ks[i]];
    }
  }

  /** Every connected overridden node whose override model is ready is planned
      exactly that model, drained or pinned elsewhere or not. */
  lemma OverridesWin(f: Fleet, spec: Spec, overrides: map<string, string>, ks: seq<string>, i: nat)
    requires FleetOk(f) && KeyOrder(ks, overrides) && i < |f.nodes|
    requires f.nodes[i].id in overrides && overrides[f.nodes[i].id] in f.byModel
    ensures var n := f.nodes[i];
            PlanIn(f, Overridden(spec, overrides, ks)).rows[i] == Row(f.byModel[overrides[n.id]], n, ByPin)
  {
    hide PlanIn, Row, StripAll;
    var n, out := f.nodes[i], Overridden(spec, overrides, ks);
    assert n in f.nodes;
    var k :| 0 <= k < |ks| && ks[k] == n.id;
    var p := OverridePins(overrides, ks)[k];
    assert p in OverridePins(overrides, ks);
    assert p.nodes == [n.id] && PinnedBy(f, p, n.id);
    forall q | q in out.policies && PinnedBy(f, q, n.id) ensures q.modelId == p.modelId {
      OnlyOverridePins(spec, overrides, ks, q, n.id);
    }
    PinsWin(f, out, p, i);
  }

  lemma PinsStep(f: Fleet, ps: seq<Policy>, p: Policy)
    ensures Pins(f, ps + [p]) == PinPolicy(f, Pins(f, ps), p)
  {
    assert (ps + [p])[..|ps|] == ps;
  }

  /** Two tables that agree outside the overridden nodes. */
  ghost predicate AgreeOutside(a: Assigned, b: Assigned, overrides: map<string, string>)
  {
    forall id :: id !in overrides ==> (id in a <==> id in b) && (id in a ==> a[id] == b[id])
  }

  lemma {:induction false} OverridePinsTouchOnlyTheirs(f: Fleet, overrides: map<string, string>, ks: seq<string>, k: nat)
    requires FleetOk(f) && KeyOrder(ks, overrides) && k <= |ks|
    ensures forall id :: id in Pins(f, OverridePins(overrides, ks)[..k]) ==> id in overrides
  {
    hide Row;
    var pins := OverridePins(overrides, ks);
    PinsFacts(f, pins[..k]);
    forall id | id in Pins(f, pins[..k]) ensures id in overrides {
      var p :| p in pins[..k] && PinnedBy(f, p, id);
      var j :| 0 <= j < k && pins[j] == p;
      assert p.nodes == [ks[j]] && ks[j] in ks;
    }
  }

  lemma PinPolicyAt(f: Fleet, a: Assigned, p: Policy, id: string)
    requires FleetOk(f) && GoodRows(f, a) && ActivePin(f, p)
    ensures id in PinPolicy(f, a, p) <==> id in a || (id in p.nodes && id in f.byNode)
    ensures id in PinPolicy(f, a, p) ==>
              PinPolicy(f, a, p)[id] == if id in a then a[id] else Row(f.byModel[p.modelId], f.byNode[id], ByPin)
  {
    hide Row;
    PinNodesFacts(f, a, p, p.nodes);
  }

  lemma StripAgrees(f: Fleet, a: Assigned, b: Assigned, overrides: map<string, string>, p: Policy)
    requires FleetOk(f) && GoodRows(f, a) && GoodRows(f, b) && AgreeOutside(a, b, overrides) && p.mode.Pin?
    ensures AgreeOutside(PinPolicy(f, a, Stripped(p, overrides)), PinPolicy(f, b, p), overrides)
  {
    hide Row, PinNodes, FleetOk, GoodRows, Stripped;
    var q := Stripped(p, overrides);
    if ActivePin(f, p) {
      forall id | id !in overrides
        ensures var c, d := PinPolicy(f, a, q), PinPolicy(f, b, p); (id in c <==> id in d) && (id in c ==> c[id] == d[id])
      {
        PinPolicyAt(f, a, q, id);
        PinPolicyAt(f, b, p, id);
      }
    }
  }

  lemma {:induction false} PinsAgree(f: Fleet, overrides: map<string, string>, front: seq<Policy>, ps: seq<Policy>)
    requires FleetOk(f) && forall id :: id in Pins(f, front) ==> id in overrides
    ensures AgreeOutside(Pins(f, front + StripAll(ps, overrides)), Pins(f, ps), overrides)
  {
    hide PinPolicy, Row, Stripped, GoodRows, FleetOk, AllAssigned;
    if ps == [] {
      assert front + StripAll(ps, overrides) == front;
    } else {
      var init, p := ps[..|ps| - 1], ps[|ps| - 1];
      PinsAgree(f, overrides, front, init);
      var before := front + StripAll(init, overrides);
      AssignedGood(f, before);
      AssignedGood(f, init);
      var q := Stripped(p, overrides);
      if p.mode.Pin? {
        StripAgrees(f, Pins(f, before), Pins(f, init), overrides, p);
        NothingLeft(f, Pins(f, before), q);
        PinsStep(f, before, q);
      } else {
        PinsStep(f, before, p);
        NotAPin(f, Pins(f, before), p);
        NotAPin(f, Pins(f, init), p);
      }
      assert front + StripAll(ps, overrides) == before + Strip(p, overrides);
      assert before + [] == before;
    }
  }

  lemma NothingLeft(f: Fleet, a: Assigned, q: Policy)
    ensures q.nodes == [] ==> PinPolicy(f, a, q) == a
  {
  }

  lemma NotAPin(f: Fleet, a: Assigned, p: Policy)
    ensures !p.mode.Pin? ==> PinPolicy(f, a, p) == a
  {
  }

  /** Every node without an override keeps exactly the pin, or the lack of one,
      that the operator's spec gives it. */
  lemma OverridesLeaveOtherPins(f: Fleet, spec: Spec, overrides: map<string, string>, ks: seq<string>, id: string)
    requires FleetOk(f) && KeyOrder(ks, overrides) && id !in overrides
    ensures var a, b := Pins(f, Overridden(spec, overrides, ks).policies), Pins(f, spec.policies);
            (id in a <==> id in b) && (id in a ==> a[id] == b[id])
  {
    hide Pins, StripAll;
    var pins := OverridePins(overrides, ks);
    OverridePinsTouchOnlyTheirs(f, overrides, ks, |ks|);
    assert pins[..|ks|] == pins;
    PinsAgree(f, overrides, pins, spec.policies);
  }

  // ----- replanning -----------------------------------------------------------------------

  /** A registered node, whether it is offline and whether it lends its RAM to a
      Big Brain pool. */
  datatype Seen = Seen(node: Node, offline: bool, lent: bool)

  /** The nodes that are planned, in order: online ones outside Big Brains. */
  function Planned(all: seq<Seen>): seq<Node>
  {
    if all == [] then []
    else
      var s := all[|all| - 1];
      Planned(all[..|all| - 1]) + (if s.offline || s.lent then [] else [s.node])
  }

  lemma {:induction false} PlannedHolds(all: seq<Seen>)
    ensures forall n :: n in Planned(all) <==> exists s :: s in all && s.node == n && !s.offline && !s.lent
  {
    if all != [] {
      var init, last := all[..|all| - 1], all[|all| - 1];
      PlannedHolds(init);
      assert forall s :: s in all <==> s in init || s == last by { assert all == init + [last]; }
    }
  }

  /** The planner's view of a node: what was observed, plus the model the last
      plan assigned to it. */
  function Input(n: Node, byNode: Assigned): Node
  {
    n.(assignedModel := if n.id in byNode && Assigning(byNode[n.id].reason) then byNode[n.id].modelId else "")
  }

  function Inputs(observed: seq<Node>, byNode: Assigned): (r: seq<Node>)
    ensures |r| == |observed| && forall i :: 0 <= i < |observed| ==> r[i] == Input(observed[i], byNode)
  {
    seq(|observed|, i requires 0 <= i < |observed| => Input(observed[i], byNode))
  }

  function Marked(row: Assignment, overrides: map<string, string>): Assignment
  {
    if row.nodeId in overrides && row.modelId == overrides[row.nodeId] then row.(reason := Benchmark) else row
  }

  function MarkedAll(rows: seq<Assignment>, overrides: map<string, string>): (r: seq<Assignment>)
    ensures |r| == |rows| && forall i :: 0 <= i < |rows| ==> r[i] == Marked(rows[i], overrides)
  {
    seq(|rows|, i requires 0 <= i < |rows| => Marked(rows[i], overrides))
  }

  function Index(rows: seq<Assignment>): Assigned
  {
    if rows == [] then map[]
    else
      var r := rows[|rows| - 1];
      Index(rows[..|rows| - 1])[r.nodeId := r]
  }

  /** What a replan of these inputs stores: the planner's plan; while benchmarks
      run, of the overridden spec and with the rows they ask for marked. */
  ghost function Replanned(spec: Spec, overrides: map<string, string>, ks: seq<string>, nodes: seq<Node>, ready: seq<PlanModel>, minTokS: real): Plan
    requires forall n :: n in ks ==> n in overrides
  {
    var made := PlanOf(Effective(spec, overrides, ks), nodes, ready, minTokS);
    Plan(MarkedAll(made.rows, overrides), made.warnings)
  }

  ghost function Effective(spec: Spec, overrides: map<string, string>, ks: seq<string>): Spec
    requires forall n :: n in ks ==> n in overrides
  {
    if overrides == map[] then spec else Overridden(spec, overrides, ks)
  }

  class Server {
    const minTokS: real
    var spec: Spec
    var plan: Plan
    var byNode: Assigned
    var overrides: map<string, string>

    constructor (spec: Spec, minTokS: real)
      ensures this.spec == spec && this.minTokS == minTokS
      ensures plan == Plan([], []) && byNode == map[] && overrides == map[]
    {
      this.spec, this.minTokS := spec, minTokS;
      plan, byNode, overrides := Plan([], []), map[], map[];
    }

    method PlanInputs(all: seq<Seen>) returns (nodes: seq<Node>)
      ensures nodes == Inputs(Planned(all), byNode)
    {
      nodes := [];
      for i := 0 to |all|
        invariant nodes == Inputs(Planned(all[..i]), byNode)
      {
        assert all[..i + 1][..i] == all[..i];
        var pn := all[i].node.(assignedModel := "");
        if !all[i].offline && !all[i].lent {
          if pn.id in byNode && Assigning(byNode[pn.id].reason) { pn := pn.(assignedModel := byNode[pn.id].modelId); }
          nodes := nodes + [pn];
        }
      }
      assert all[..|all|] == all;
    }

    /** Plans the nodes with the last plan fed back; while benchmarks
        run, under their overrides. */
    method Replan(all: seq<Seen>, ready: seq<PlanModel>)
      requires NoNegativeReplicas(spec.policies)
      modifies this`plan, this`byNode
      ensures byNode == Index(plan.rows)
      ensures overrides == map[] ==> plan == PlanOf(spec, Inputs(Planned(all), old(byNode)), ready, minTokS)
      ensures exists ks :: KeyOrder(ks, overrides) && plan == Replanned(spec, overrides, ks, Inputs(Planned(all), old(byNode)), ready, minTokS)
    {
      hide PlanOf;
      var nodes := PlanInputs(all);
      var effective := spec;
      ghost var order;
      if |overrides| > 0 {
        effective, order := WithOverrides(spec, overrides);
        StripAllFacts(spec.policies, overrides);
      } else {
        var none := SortedKeys(overrides);
        order := none;
      }
      var made := MakePlan(effective, nodes, ready, minTokS);
      var rows, index := MarkRows(made.rows);
      plan, byNode := Plan(rows, made.warnings), index;
      assert KeyOrder(order, overrides);
    }

    method MarkRows(made: seq<Assignment>) returns (rows: seq<Assignment>, index: Assigned)
      ensures rows == MarkedAll(made, overrides) && index == Index(rows)
      ensures overrides == map[] ==> rows == made
    {
      rows, index := [], map[];
      for i := 0 to |made|
        invariant |rows| == i && forall j :: 0 <= j < i ==> rows[j] == Marked(made[j], overrides)
        invariant index == Index(rows)
      {
        var row := made[i];
        if row.nodeId in overrides && row.modelId == overrides[row.nodeId] { row := row.(reason := Benchmark); }
        assert (rows + [row])[..i] == rows;
        rows, index := rows + [row], index[row.nodeId := row];
      }
    }

    /** "" clears the override; either way the fleet is planned again. */
    method SetBenchmarkOverride(node: string, model: string, all: seq<Seen>, ready: seq<PlanModel>)
      requires NoNegativeReplicas(spec.policies)
      modifies this`plan, this`byNode, this`overrides
      ensures overrides == if model == "" then old(overrides) - {node} else old(overrides)[node := model]
      ensures byNode == Index(plan.rows)
      ensures overrides == map[] ==> plan == PlanOf(spec, Inputs(Planned(all), old(byNode)), ready, minTokS)
      ensures exists ks :: KeyOrder(ks, overrides) && plan == Replanned(spec, overrides, ks, Inputs(Planned(all), old(byNode)), ready, minTokS)
    {
      hide PlanOf;
      if model == "" { overrides := overrides - {node}; } else { overrides := overrides[node := model]; }
      Replan(all, ready);
    }

    /** What the node is told at its next heartbeat. */
    method DesiredFor(nodeId: string, lent: Option<string>, catalog: map<string, Offer>) returns (d: Option<A.Desired>)
      ensures d == Desired(lent, byNode, catalog, nodeId)
    {
      if lent.Some? { return Some(A.Desired(lent.value, "", "", 0, 0, 0, 0, "", MemPlan.Shape(0, 0, 0), true)); }
      if nodeId !in byNode || !Assigning(byNode[nodeId].reason) { return None; }
      var a := byNode[nodeId];
      if a.modelId !in catalog { return None; }
      var o := catalog[a.modelId];
      return Some(A.Desired(o.model.id, MODEL_FILES + o.model.id, o.sha256, o.model.sizeBytes, o.model.residentBytes,
                            a.ctxSize, a.slots, a.kvType, o.model.shape, false));
    }
  }

  // ----- the feedback is the one that does not flap ------------------------------------------

  ghost predicate OneRowEach(rows: seq<Assignment>)
  {
    forall i, j :: 0 <= i < |rows| && 0 <= j < |rows| && rows[i].nodeId == rows[j].nodeId ==> i == j
  }

  lemma OneRowEachInit(rows: seq<Assignment>)
    requires OneRowEach(rows) && rows != []
    ensures var init, last := rows[..|rows| - 1], rows[|rows| - 1];
            OneRowEach(init) && forall r :: r in init ==> r.nodeId != last.nodeId
  {
    var init := rows[..|rows| - 1];
    assert forall i :: 0 <= i < |init| ==> init[i] == rows[i] && rows[i].nodeId != rows[|rows| - 1].nodeId;
    assert forall i, j :: 0 <= i < |init| && 0 <= j < |init| && init[i].nodeId == init[j].nodeId ==> rows[i].nodeId == rows[j].nodeId;
  }

  lemma {:induction false} IndexFinds(rows: seq<Assignment>)
    requires OneRowEach(rows)
    ensures forall r :: r in rows ==> r.nodeId in Index(rows) && Index(rows)[r.nodeId] == r
    ensures forall id :: id in Index(rows) ==> Index(rows)[id] in rows && Index(rows)[id].nodeId == id
  {
    if rows != [] {
      var init, last := rows[..|rows| - 1], rows[|rows| - 1];
      OneRowEachInit(rows);
      hide OneRowEach;
      IndexFinds(init);
      assert forall r :: r in rows <==> r in init || r == last by { assert rows == init + [last]; }
    }
  }

  /** A heartbeat later: only CurrentModel may differ, and only by the node
      having switched to the model it was assigned. */
  ghost predicate Switching(byNode: Assigned, observed: seq<Node>, later: seq<Node>)
  {
    |observed| == |later| && forall i :: 0 <= i < |observed| ==>
      && later[i] == observed[i].(currentModel := later[i].currentModel)
      && (later[i].currentModel == observed[i].currentModel
          || (observed[i].id in byNode && Assigning(byNode[observed[i].id].reason) && later[i].currentModel == byNode[observed[i].id].modelId))
  }

  lemma UniqueRows(spec: Spec, nodes: seq<Node>, models: seq<PlanModel>, minTokS: real)
    requires UniqueIds(nodes) && NamedModels(models)
    ensures OneRowEach(PlanOf(spec, nodes, models, minTokS).rows)
  {
    hide PlanOf;
    OneRowPerNode(spec, nodes, models, minTokS);
    var rows := PlanOf(spec, nodes, models, minTokS).rows;
    forall i, j | 0 <= i < |rows| && 0 <= j < |rows| && rows[i].nodeId == rows[j].nodeId ensures i == j {
      CompareZero(rows[i].nodeId, rows[j].nodeId);
    }
  }

  /** Marking rows changes neither whose they are nor their models. */
  lemma MarkedIndex(rows: seq<Assignment>, overrides: map<string, string>)
    requires OneRowEach(rows)
    ensures var byNode := Index(MarkedAll(rows, overrides));
            && (forall r :: r in rows ==> r.nodeId in byNode && byNode[r.nodeId] == Marked(r, overrides))
            && (forall id :: id in byNode ==> exists r :: r in rows && r.nodeId == id)
  {
    var marked := MarkedAll(rows, overrides);
    assert OneRowEach(marked);
    hide OneRowEach;
    IndexFinds(marked);
    forall r | r in rows ensures r.nodeId in Index(marked) && Index(marked)[r.nodeId] == Marked(r, overrides) {
      var i :| 0 <= i < |rows| && rows[i] == r;
      assert marked[i] in marked;
    }
    forall id | id in Index(marked) ensures exists r :: r in rows && r.nodeId == id {
      var i :| 0 <= i < |marked| && marked[i] == Index(marked)[id];
      assert rows[i] in rows;
    }
  }

  lemma InputsFeedBack(made: Plan, overrides: map<string, string>, byNode: Assigned, byNode': Assigned, observed: seq<Node>, later: seq<Node>)
    requires forall r :: r in made.rows ==> r.nodeId in byNode' && byNode'[r.nodeId] == Marked(r, overrides)
    requires forall id :: id in byNode' ==> exists r :: r in made.rows && r.nodeId == id
    requires forall i, r :: 0 <= i < |observed| && r in made.rows && r.nodeId == observed[i].id && !Assigning(r.reason)
               ==> r.modelId == observed[i].currentModel
    requires Switching(byNode', observed, later)
    ensures Feedback(made, Inputs(observed, byNode), Inputs(later, byNode'))
  {
  }

  /** A row that assigns nothing keeps what its node serves. */
  lemma KeptIsCurrent(spec: Spec, nodes: seq<Node>, models: seq<PlanModel>, minTokS: real)
    requires UniqueIds(nodes) && NamedModels(models)
    ensures forall i, r :: 0 <= i < |nodes| && r in PlanOf(spec, nodes, models, minTokS).rows && r.nodeId == nodes[i].id && !Assigning(r.reason)
              ==> r.modelId == nodes[i].currentModel
  {
    hide PlanIn, FleetOf, AllAssigned, FitsNode, MeetsSpeed;
    var f := FleetOf(nodes, models, minTokS);
    FleetOfOk(nodes, models, minTokS);
    forall i, r | 0 <= i < |nodes| && r in PlanIn(f, spec).rows && r.nodeId == nodes[i].id && !Assigning(r.reason)
      ensures r.modelId == nodes[i].currentModel
    {
      assert nodes[i] in f.nodes;
      RowOf(f, spec, nodes[i]);
      if nodes[i].id in AllAssigned(f, spec.policies) { AssignedRowEarned(f, spec, nodes[i]); }
    }
  }

  lemma EffectiveOneQuota(spec: Spec, overrides: map<string, string>, ks: seq<string>)
    requires OneQuotaPerModel(spec.policies) && forall n :: n in ks ==> n in overrides
    ensures OneQuotaPerModel(Effective(spec, overrides, ks).policies)
  {
    hide OneQuotaPerModel;
    OverriddenOneQuota(overrides, OverridePins(overrides, ks), spec.policies);
  }

  /** Replanning a switching fleet, with or without benchmarks: while nothing but
      the switches happens, the plan Replan makes next is the plan it made
      before, unless that one is exposed. */
  lemma ReplanIsStable(spec: Spec, overrides: map<string, string>, ks: seq<string>, byNode: Assigned,
                       observed: seq<Node>, later: seq<Node>, ready: seq<PlanModel>, minTokS: real)
    requires KeyOrder(ks, overrides) && UniqueIds(Inputs(observed, byNode)) && NamedModels(ready)
    requires OneQuotaPerModel(spec.policies) && !Exposed(Effective(spec, overrides, ks), Inputs(observed, byNode), ready, minTokS)
    requires Switching(Index(Replanned(spec, overrides, ks, Inputs(observed, byNode), ready, minTokS).rows), observed, later)
    ensures var plan := Replanned(spec, overrides, ks, Inputs(observed, byNode), ready, minTokS);
            && Replanned(spec, overrides, ks, Inputs(later, Index(plan.rows)), ready, minTokS) == plan
            && UniqueIds(Inputs(later, Index(plan.rows)))
            && !Exposed(Effective(spec, overrides, ks), Inputs(later, Index(plan.rows)), ready, minTokS)
  {
    hide PlanOf, Inputs, UniqueIds, Exposed, OneQuotaPerModel, Effective, Switching, Feedback;
    var plan, effective := Replanned(spec, overrides, ks, Inputs(observed, byNode), ready, minTokS), Effective(spec, overrides, ks);
    var made := PlanOf(effective, Inputs(observed, byNode), ready, minTokS);
    UniqueRows(effective, Inputs(observed, byNode), ready, minTokS);
    MarkedIndex(made.rows, overrides);
    KeptIsCurrent(effective, Inputs(observed, byNode), ready, minTokS);
    InputsFeedBack(made, overrides, byNode, Index(plan.rows), observed, later);
    EffectiveOneQuota(spec, overrides, ks);
    PlanDoesNotFlap(effective, Inputs(observed, byNode), Inputs(later, Index(plan.rows)), ready, minTokS);
    StaysUnexposed(effective, Inputs(observed, byNode), Inputs(later, Index(plan.rows)), ready, minTokS);
  }

  /** There is one order of the overrides, so the ks of two replans agree. */
  lemma OneKeyOrder(ks: seq<string>, ks': seq<string>, overrides: map<string, string>)
    requires KeyOrder(ks, overrides) && KeyOrder(ks', overrides)
    ensures ks == ks'
  {
    ByNameIsTotal();
    DistinctMultiset(ks);
    DistinctMultiset(ks');
    forall x ensures multiset(ks)[x] == multiset(ks')[x] {
      assert x in ks <==> x in multiset(ks);
      assert x in ks' <==> x in multiset(ks');
    }
    forall i, j | 0 <= i < |ks| && 0 <= j < |ks| && ByName()(ks[i], ks[j]) && ByName()(ks[j], ks[i]) ensures ks[i] == ks[j] {
      CompareFlips(ks[i], ks[j]);
      CompareZero(ks[i], ks[j]);
    }
    SortedUnique(ByName(), ks, ks');
  }

  /** What two heartbeats of a fleet that acts on this plan may show. */
  ghost predicate ActsOn(plan: Plan, beats: seq<seq<Seen>>)
  {
    forall i :: 0 < i < |beats| ==> Switching(Index(plan.rows), Planned(beats[i - 1]), Planned(beats[i]))
  }

  /** One replan with the order of the overrides given. */
  method ReplanIn(s: Server, all: seq<Seen>, ready: seq<PlanModel>, ghost ks: seq<string>)
    requires NoNegativeReplicas(s.spec.policies) && KeyOrder(ks, s.overrides)
    modifies s`plan, s`byNode
    ensures s.byNode == Index(s.plan.rows)
    ensures s.plan == Replanned(s.spec, s.overrides, ks, Inputs(Planned(all), old(s.byNode)), ready, s.minTokS)
  {
    hide Replanned, Sorted, Distinct, Index;
    s.Replan(all, ready);
    ghost var own :| KeyOrder(own, s.overrides)
                     && s.plan == Replanned(s.spec, s.overrides, own, Inputs(Planned(all), old(s.byNode)), ready, s.minTokS);
    OneKeyOrder(own, ks, s.overrides);
  }

  /** These inputs make plan, which is not exposed. */
  ghost predicate Steady(spec: Spec, overrides: map<string, string>, ks: seq<string>, nodes: seq<Node>, ready: seq<PlanModel>, minTokS: real, plan: Plan)
    requires KeyOrder(ks, overrides)
  {
    && UniqueIds(nodes) && !Exposed(Effective(spec, overrides, ks), nodes, ready, minTokS)
    && plan == Replanned(spec, overrides, ks, nodes, ready, minTokS)
  }

  lemma SteadyStep(spec: Spec, overrides: map<string, string>, ks: seq<string>, byNode: Assigned, observed: seq<Node>, later: seq<Node>,
                   ready: seq<PlanModel>, minTokS: real, plan: Plan)
    requires KeyOrder(ks, overrides) && OneQuotaPerModel(spec.policies) && NamedModels(ready)
    requires Steady(spec, overrides, ks, Inputs(observed, byNode), ready, minTokS, plan) && Switching(Index(plan.rows), observed, later)
    ensures Steady(spec, overrides, ks, Inputs(later, Index(plan.rows)), ready, minTokS, plan)
  {
    hide Exposed, Effective, Replanned, Switching, Inputs, UniqueIds, OneQuotaPerModel, Index, Sorted, Distinct;
    ReplanIsStable(spec, overrides, ks, byNode, observed, later, ready, minTokS);
  }

  /** The server does not flap: replanning at every heartbeat of a fleet that
      acts on the first plan makes the first plan each time, unless it is
      exposed. */
  method ReplanAll(s: Server, beats: seq<seq<Seen>>, ready: seq<PlanModel>, ghost ks: seq<string>)
    requires NoNegativeReplicas(s.spec.policies) && OneQuotaPerModel(s.spec.policies) && NamedModels(ready)
    requires KeyOrder(ks, s.overrides) && beats != [] && UniqueSeen(beats[0])
    requires !Exposed(Effective(s.spec, s.overrides, ks), Inputs(Planned(beats[0]), s.byNode), ready, s.minTokS)
    requires ActsOn(Replanned(s.spec, s.overrides, ks, Inputs(Planned(beats[0]), s.byNode), ready, s.minTokS), beats)
    modifies s`plan, s`byNode
    ensures s.plan == Replanned(s.spec, s.overrides, ks, Inputs(Planned(beats[0]), old(s.byNode)), ready, s.minTokS)
    ensures s.byNode == Index(s.plan.rows)
  {
    hide *;
    ghost var spec, overrides, minTokS, before := s.spec, s.overrides, s.minTokS, s.byNode;
    ghost var first := SteadyStart(spec, overrides, ks, beats[0], before, ready, minTokS);
    ReplanIn(s, beats[0], ready, ks);
    for i := 1 to |beats|
      invariant s.spec == spec && s.overrides == overrides && s.plan == first && s.byNode == Index(first.rows)
      invariant Steady(spec, overrides, ks, Inputs(Planned(beats[i - 1]), before), ready, minTokS, first)
    {
      ActsAt(first, beats, i);
      SteadyStep(spec, overrides, ks, before, Planned(beats[i - 1]), Planned(beats[i]), ready, minTokS, first);
      before := Index(first.rows);
      SteadyPlan(spec, overrides, ks, Inputs(Planned(beats[i]), before), ready, minTokS, first);
      ReplanIn(s, beats[i], ready, ks);
    }
  }

  lemma SteadyStart(spec: Spec, overrides: map<string, string>, ks: seq<string>, all: seq<Seen>, byNode: Assigned, ready: seq<PlanModel>, minTokS: real)
    returns (plan: Plan)
    requires KeyOrder(ks, overrides) && UniqueSeen(all) && !Exposed(Effective(spec, overrides, ks), Inputs(Planned(all), byNode), ready, minTokS)
    ensures plan == Replanned(spec, overrides, ks, Inputs(Planned(all), byNode), ready, minTokS)
    ensures Steady(spec, overrides, ks, Inputs(Planned(all), byNode), ready, minTokS, plan) && forall n :: n in ks ==> n in overrides
  {
    PlannedUnique(all);
    hide Exposed, Effective, Sorted, Distinct, Planned;
    plan := Replanned(spec, overrides, ks, Inputs(Planned(all), byNode), ready, minTokS);
  }

  lemma SteadyPlan(spec: Spec, overrides: map<string, string>, ks: seq<string>, nodes: seq<Node>, ready: seq<PlanModel>, minTokS: real, plan: Plan)
    requires KeyOrder(ks, overrides) && Steady(spec, overrides, ks, nodes, ready, minTokS, plan)
    ensures plan == Replanned(spec, overrides, ks, nodes, ready, minTokS)
  {
  }

  lemma ActsAt(plan: Plan, beats: seq<seq<Seen>>, i: nat)
    requires ActsOn(plan, beats) && 0 < i < |beats|
    ensures Switching(Index(plan.rows), Planned(beats[i - 1]), Planned(beats[i]))
  {
  }

  // ----- who is planned ------------------------------------------------------------------------

  ghost predicate UniqueSeen(all: seq<Seen>)
  {
    forall i, j :: 0 <= i < |all| && 0 <= j < |all| && all[i].node.id == all[j].node.id ==> i == j
  }

  lemma {:induction false} PlannedUnique(all: seq<Seen>)
    requires UniqueSeen(all)
    ensures UniqueIds(Planned(all))
  {
    if all != [] {
      var init, last := all[..|all| - 1], all[|all| - 1];
      assert forall i :: 0 <= i < |init| ==> init[i] == all[i] && all[i].node.id != all[|all| - 1].node.id;
      assert forall i, j :: 0 <= i < |init| && 0 <= j < |init| && init[i].node.id == init[j].node.id ==> all[i].node.id == all[j].node.id;
      PlannedUnique(init);
      PlannedHolds(init);
      hide Planned, UniqueSeen;
      NewId(Planned(init), init, last);
      PlannedSnoc(init, last);
      assert all == init + [last];
    }
  }

  lemma PlannedSnoc(init: seq<Seen>, last: Seen)
    ensures Planned(init + [last]) == Planned(init) + (if last.offline || last.lent then [] else [last.node])
  {
    assert (init + [last])[..|init|] == init;
  }

  lemma NewId(nodes: seq<Node>, init: seq<Seen>, last: Seen)
    requires UniqueIds(nodes) && (forall n :: n in nodes ==> exists s :: s in init && s.node == n)
    requires forall i :: 0 <= i < |init| ==> init[i].node.id != last.node.id
    ensures UniqueIds(nodes + [last.node])
  {
    forall n | n in nodes ensures n.id != last.node.id {
      var s :| s in init && s.node == n;
    }
    assert forall i :: 0 <= i < |nodes| ==> nodes[i] in nodes;
  }

  /** A registered node has a row in the plan if and only if it is online and
      lends its RAM to no Big Brain pool. */
  lemma PlannedHaveRows(spec: Spec, all: seq<Seen>, byNode: Assigned, ready: seq<PlanModel>, minTokS: real, s: Seen)
    requires UniqueSeen(all) && NamedModels(ready) && s in all
    ensures (exists r :: r in PlanOf(spec, Inputs(Planned(all), byNode), ready, minTokS).rows && r.nodeId == s.node.id)
            <==> !s.offline && !s.lent
  {
    var nodes := Inputs(Planned(all), byNode);
    PlannedUnique(all);
    PlannedHolds(all);
    assert UniqueIds(nodes);
    RowsAreForNodes(spec, nodes, ready, minTokS, s.node.id);
    hide PlanOf, UniqueIds;
    assert (exists n :: n in nodes && n.id == s.node.id) <==> s.node in Planned(all) by {
      hide Planned;
      if n :| n in nodes && n.id == s.node.id { SeenOnce(all, n, s, byNode); }
      if s.node in Planned(all) {
        var i :| 0 <= i < |Planned(all)| && Planned(all)[i] == s.node;
        assert nodes[i] in nodes;
      }
    }
    SeenIs(all, s);
  }

  lemma SeenIs(all: seq<Seen>, s: Seen)
    requires UniqueSeen(all) && s in all
    ensures forall t :: t in all && t.node.id == s.node.id ==> t == s
  {
  }

  lemma SeenOnce(all: seq<Seen>, n: Node, s: Seen, byNode: Assigned)
    requires UniqueSeen(all) && n in Inputs(Planned(all), byNode) && s in all && n.id == s.node.id
    ensures s.node in Planned(all)
  {
    PlannedHolds(all);
    var i :| 0 <= i < |Planned(all)| && Inputs(Planned(all), byNode)[i] == n;
    assert Planned(all)[i] in Planned(all);
    SeenIs(all, s);
  }

  lemma RowsAreForNodes(spec: Spec, nodes: seq<Node>, ready: seq<PlanModel>, minTokS: real, id: string)
    requires UniqueIds(nodes) && NamedModels(ready)
    ensures (exists r :: r in PlanOf(spec, nodes, ready, minTokS).rows && r.nodeId == id) <==> exists n :: n in nodes && n.id == id
  {
    hide PlanIn, FleetOf;
    var f := FleetOf(nodes, ready, minTokS);
    FleetOfOk(nodes, ready, minTokS);
    SameRows(f, spec);
    var rows := PlanIn(f, spec).rows;
    if r :| r in rows && r.nodeId == id {
      var i :| 0 <= i < |rows| && rows[i] == r;
      assert f.nodes[i] in f.nodes;
    }
    if n :| n in nodes && n.id == id {
      assert n in f.nodes;
      var i :| 0 <= i < |f.nodes| && f.nodes[i] == n;
      assert rows[i] in rows;
    }
  }

  // ----- what a node is told to serve ----------------------------------------------------------

  /** A ready model of the catalog, with its file's hash. */
  datatype Offer = Offer(model: PlanModel, sha256: string)

  ghost predicate CatalogOk(catalog: map<string, Offer>)
  {
    forall id :: id in catalog ==> catalog[id].model.id == id
  }

  const MODEL_FILES: string := "/v1/model-files/"

  /** desired: a Big Brain member lends its RAM; another node serves what the last
      plan assigned to it, while that model is ready; None lets it keep what it
      has. */
  function Desired(lent: Option<string>, byNode: Assigned, catalog: map<string, Offer>, nodeId: string): Option<A.Desired>
  {
    if lent.Some? then Some(A.Desired(lent.value, "", "", 0, 0, 0, 0, "", MemPlan.Shape(0, 0, 0), true))
    else if nodeId in byNode && Assigning(byNode[nodeId].reason) && byNode[nodeId].modelId in catalog then
      var a, o := byNode[nodeId], catalog[byNode[nodeId].modelId];
      Some(A.Desired(o.model.id, MODEL_FILES + o.model.id, o.sha256, o.model.sizeBytes, o.model.residentBytes,
                     a.ctxSize, a.slots, a.kvType, o.model.shape, false))
    else None
  }

  /** What a row of the plan has its node told. */
  ghost predicate Told(d: Option<A.Desired>, row: Assignment, catalog: map<string, Offer>)
  {
    && (d.Some? <==> row.reason in {ByPin, ByReplicas, ByPercent, ByDefault, Benchmark} && row.modelId in catalog)
    && (d.Some? ==>
          && var o := catalog[row.modelId];
             && d.value.modelId == row.modelId && d.value.url == MODEL_FILES + row.modelId && !d.value.rpc
             && d.value.ctxSize == row.ctxSize && d.value.slots == row.slots && d.value.kvType == row.kvType
             && d.value.sha256 == o.sha256 && d.value.sizeBytes == o.model.sizeBytes
             && d.value.residentBytes == o.model.residentBytes && d.value.shape == o.model.shape)
  }

  /** After a replan every node outside Big Brains is told exactly what its row
      says, marked rows included, and one without a row nothing. */
  lemma NodesAreTold(spec: Spec, overrides: map<string, string>, ks: seq<string>, nodes: seq<Node>, ready: seq<PlanModel>, minTokS: real,
                     catalog: map<string, Offer>, nodeId: string)
    requires KeyOrder(ks, overrides) && UniqueIds(nodes) && NamedModels(ready) && CatalogOk(catalog)
    ensures var rows := Replanned(spec, overrides, ks, nodes, ready, minTokS).rows;
            var d := Desired(None, Index(rows), catalog, nodeId);
            && (forall row :: row in rows && row.nodeId == nodeId ==> Told(d, row, catalog))
            && ((forall row :: row in rows ==> row.nodeId != nodeId) ==> d.None?)
  {
    ReplannedRows(spec, overrides, ks, nodes, ready, minTokS);
    IndexTells(Replanned(spec, overrides, ks, nodes, ready, minTokS).rows, catalog, nodeId);
    hide *;
  }

  lemma ReplannedRows(spec: Spec, overrides: map<string, string>, ks: seq<string>, nodes: seq<Node>, ready: seq<PlanModel>, minTokS: real)
    requires KeyOrder(ks, overrides) && UniqueIds(nodes) && NamedModels(ready)
    ensures OneRowEach(Replanned(spec, overrides, ks, nodes, ready, minTokS).rows)
  {
    hide PlanOf, Effective, UniqueIds, Sorted, Distinct;
    UniqueRows(Effective(spec, overrides, ks), nodes, ready, minTokS);
  }

  lemma IndexTells(rows: seq<Assignment>, catalog: map<string, Offer>, nodeId: string)
    requires OneRowEach(rows) && CatalogOk(catalog)
    ensures var d := Desired(None, Index(rows), catalog, nodeId);
            && (forall row :: row in rows && row.nodeId == nodeId ==> Told(d, row, catalog))
            && ((forall row :: row in rows ==> row.nodeId != nodeId) ==> d.None?)
  {
    IndexFinds(rows);
    hide OneRowEach, Index;
  }

  /** A benchmark's phone is told the benchmark's model: an online node outside
      Big Brains, whose override names a model that is ready. */
  lemma OverrideIsTold(spec: Spec, overrides: map<string, string>, ks: seq<string>, nodes: seq<Node>, ready: seq<PlanModel>, minTokS: real,
                       catalog: map<string, Offer>, n: Node)
    requires KeyOrder(ks, overrides) && UniqueIds(nodes) && NamedModels(ready) && CatalogOk(catalog)
    requires n in nodes && n.id in overrides && overrides[n.id] in catalog && exists m :: m in ready && m.id == overrides[n.id]
    ensures var d := Desired(None, Index(Replanned(spec, overrides, ks, nodes, ready, minTokS).rows), catalog, n.id);
            d.Some? && d.value.modelId == overrides[n.id]
  {
    var f, out := FleetOf(nodes, ready, minTokS), Overridden(spec, overrides, ks);
    FleetOfOk(nodes, ready, minTokS);
    ReadyInTable(ready, overrides[n.id]);
    assert n in f.nodes && f.byModel == ModelTable(ready);
    assert Effective(spec, overrides, ks) == out;
    var rows := Replanned(spec, overrides, ks, nodes, ready, minTokS).rows;
    assert rows == MarkedAll(PlanIn(f, out).rows, overrides);
    hide PlanIn, FleetOf, Overridden, Effective, Replanned, KeyOrder, ModelTable, UniqueIds, CatalogOk, Index, Desired;
    var i :| 0 <= i < |f.nodes| && f.nodes[i] == n;
    SameRows(f, out);
    OverridesWin(f, spec, overrides, ks, i);
    assert PlanIn(f, out).rows[i].modelId == overrides[n.id] by { assert FleetOk(f); }
    assert rows[i] in rows && rows[i].nodeId == n.id && rows[i].reason == Benchmark && rows[i].modelId == overrides[n.id];
    NodesAreTold(spec, overrides, ks, nodes, ready, minTokS, catalog, n.id);
    assert Told(Desired(None, Index(rows), catalog, n.id), rows[i], catalog);
  }

  lemma ReadyInTable(ready: seq<PlanModel>, id: string)
    requires exists m :: m in ready && m.id == id
    ensures id in ModelTable(ready)
  {
    ModelTableHolds(ready);
  }

  /** Starting a benchmark: its phone is told its model at the next heartbeat. */
  method StartBenchmark(s: Server, node: string, model: string, all: seq<Seen>, ready: seq<PlanModel>, catalog: map<string, Offer>)
    returns (d: Option<A.Desired>)
    requires NoNegativeReplicas(s.spec.policies) && NamedModels(ready) && CatalogOk(catalog) && UniqueSeen(all)
    requires model != "" && model in catalog && exists m :: m in ready && m.id == model
    requires exists x :: x in all && x.node.id == node && !x.offline && !x.lent
    modifies s`plan, s`byNode, s`overrides
    ensures s.overrides == old(s.overrides)[node := model] && d.Some? && d.value.modelId == model
  {
    hide Replanned, Index, NoNegativeReplicas, Sorted, Distinct, Planned, UniqueSeen, Desired;
    ghost var before := s.byNode;
    s.SetBenchmarkOverride(node, model, all, ready);
    d := s.DesiredFor(node, None, catalog);
    ghost var ks :| KeyOrder(ks, s.overrides) && s.plan == Replanned(s.spec, s.overrides, ks, Inputs(Planned(all), before), ready, s.minTokS);
    ghost var n := SeenInput(all, node, before);
    OverrideIsTold(s.spec, s.overrides, ks, Inputs(Planned(all), before), ready, s.minTokS, catalog, n);
  }

  lemma SeenInput(all: seq<Seen>, node: string, byNode: Assigned) returns (n: Node)
    requires UniqueSeen(all) && exists x :: x in all && x.node.id == node && !x.offline && !x.lent
    ensures n in Inputs(Planned(all), byNode) && n.id == node && UniqueIds(Inputs(Planned(all), byNode))
  {
    PlannedUnique(all);
    PlannedHolds(all);
    var x :| x in all && x.node.id == node && !x.offline && !x.lent;
    assert x.node in Planned(all);
    var i :| 0 <= i < |Planned(all)| && Planned(all)[i] == x.node;
    n := Inputs(Planned(all), byNode)[i];
  }

  /** The plan and the agent agree: whenever a node that reports a budget gets a
      replicas, percent or default row, it is told that row's model, and can size
      it on every budget at least that large, with no smaller a context than on
      the reported one. */
  lemma AgentCanServeThePlan(f: Fleet, spec: Spec, i: nat, catalog: map<string, Offer>, budget: int)
    requires FleetOk(f) && i < |f.nodes| && 0 < f.nodes[i].budgetBytes <= budget
    requires PlanIn(f, spec).rows[i].reason in {ByReplicas, ByPercent, ByDefault}
    requires forall id :: id in f.byModel ==> id in catalog && catalog[id].model == f.byModel[id]
    ensures var n, row := f.nodes[i], PlanIn(f, spec).rows[i];
            var d := Desired(None, map[n.id := row], catalog, n.id);
            && d.Some? && d.value.modelId == row.modelId
            && var now, then_ := A.SizeFor(d.value, d.value.sizeBytes, n.budgetBytes), A.SizeFor(d.value, d.value.sizeBytes, budget);
               now.Sized? && then_.Sized? && now.config.ctx <= then_.config.ctx && now.config.slots <= then_.config.slots
  {
    hide AllAssigned, AllWarnings, MemPlan.PlanFor, EstRAM, PredictedTPS, MeetsSpeed;
    var n, row := f.nodes[i], PlanIn(f, spec).rows[i];
    assert n in f.nodes;
    EveryRowEarned(f, spec, i);
    AssignedGood(f, spec.policies);
    assert row.modelId in f.byModel && FitsNode(f.byModel[row.modelId], n);
    var m := f.byModel[row.modelId];
    assert row.ctxSize == CtxSize(m) && row.slots == 1 && row.kvType == "auto";
    MemPlan.BudgetMonotone(Weights(m), CtxSize(m), 1, "auto", n.budgetBytes, budget);
  }
}
