/** Soundness of a plan: one row a node, every row earned, quotas met exactly,
    shortfalls told, and no policy overtaken by a weaker one. */
module PlannerSound {
  import opened Ordering
  import opened PlannerModel
  import opened Planner
  import opened PlannerFacts
  import MemPlan

  ghost predicate OnePolicyPerModel(ps: seq<Policy>)
  {
    forall i, j :: 0 <= i < |ps| && 0 <= j < |ps| && ps[i].modelId == ps[j].modelId ==> i == j
  }

  lemma OnePolicyMeans(ps: seq<Policy>)
    ensures OnePolicyPerModel(ps) <==> Distinct(ps) && forall p, q :: p in ps && q in ps && p.modelId == q.modelId ==> p == q
  {
    if Distinct(ps) && forall p, q :: p in ps && q in ps && p.modelId == q.modelId ==> p == q {
      forall i, j | 0 <= i < |ps| && 0 <= j < |ps| && ps[i].modelId == ps[j].modelId ensures i == j {
        assert ps[i] == ps[j];
      }
    }
  }

  /** A replicas or percent policy. */
  predicate IsQuota(p: Policy) { p.mode.Replicas? || p.mode.Percent? }

  ghost predicate OneQuotaPerModel(ps: seq<Policy>)
  {
    forall i, j :: 0 <= i < |ps| && 0 <= j < |ps| && IsQuota(ps[i]) && IsQuota(ps[j]) && ps[i].modelId == ps[j].modelId ==> i == j
  }

  lemma OnePolicyOneQuota(ps: seq<Policy>)
    requires OnePolicyPerModel(ps)
    ensures OneQuotaPerModel(ps)
  {
  }

  lemma {:induction false} QuotaAtMostOnce(ps: seq<Policy>, p: Policy)
    requires OneQuotaPerModel(ps) && IsQuota(p)
    ensures multiset(ps)[p] <= 1
  {
    if ps != [] {
      var init, last := ps[..|ps| - 1], ps[|ps| - 1];
      assert ps == init + [last];
      QuotaAtMostOnce(init, p);
      assert p in init <==> p in multiset(init);
    }
  }

  lemma TurnAtMostOnce(f: Fleet, ps: seq<Policy>, mode: Mode, p: Policy)
    requires OneQuotaPerModel(ps) && (mode.Replicas? || mode.Percent?)
    ensures multiset(Turn(f, ps, mode))[p] <= 1
  {
    hide OneQuotaPerModel;
    FilterMultiset(ReadyIn(f.byModel, mode), ps, p);
    if IsQuota(p) { QuotaAtMostOnce(ps, p); }
  }

  lemma TurnDiffers(f: Fleet, ps: seq<Policy>, mode: Mode, p: Policy, q: Policy)
    requires OneQuotaPerModel(ps) && (mode.Replicas? || mode.Percent?)
    requires p in Turn(f, ps, mode) && q in Turn(f, ps, mode) && p.modelId == q.modelId
    ensures p == q
  {
    QuotasDiffer(ps);
    hide OneQuotaPerModel;
  }

  lemma TurnOnce(f: Fleet, ps: seq<Policy>, mode: Mode)
    requires OneQuotaPerModel(ps) && (mode.Replicas? || mode.Percent?)
    ensures OnePolicyPerModel(Turn(f, ps, mode))
  {
    hide *;
    var t := Turn(f, ps, mode);
    forall p, q | p in t && q in t && p.modelId == q.modelId ensures p == q { TurnDiffers(f, ps, mode, p, q); }
    forall p ensures multiset(t)[p] <= 1 { TurnAtMostOnce(f, ps, mode, p); }
    DistinctMultiset(t);
    OnePolicyMeans(t);
  }

  lemma QuotasDiffer(ps: seq<Policy>)
    requires OneQuotaPerModel(ps)
    ensures forall p, q :: p in ps && q in ps && IsQuota(p) && IsQuota(q) && p.modelId == q.modelId ==> p == q
  {
  }

  /** With one quota a model, every quota policy gets one turn. */
  lemma TurnsOnce(f: Fleet, ps: seq<Policy>)
    requires OneQuotaPerModel(ps)
    ensures OnePolicyPerModel(Turns(f, ps))
  {
    TurnOnce(f, ps, Replicas);
    TurnOnce(f, ps, Percent);
    QuotasDiffer(ps);
    hide OneQuotaPerModel;
    var r, s := Turn(f, ps, Replicas), Turn(f, ps, Percent);
    var t := r + s;
    forall i, j | 0 <= i < |t| && 0 <= j < |t| && t[i].modelId == t[j].modelId ensures i == j {
      assert t[i] in ps && t[j] in ps && t[i] == t[j];
      if i < |r| { assert t[i] in r; } else { assert t[i] in s; }
      if j < |r| { assert t[j] in r; } else { assert t[j] in s; }
    }
  }

  // ----- rows -----------------------------------------------------------------------

  lemma RowOfNode(f: Fleet, spec: Spec, i: nat)
    requires FleetOk(f) && i < |f.nodes|
    ensures PlanIn(f, spec).rows[i].nodeId == f.nodes[i].id
  {
    hide AllAssigned, AllWarnings, FinalRow;
    AssignedGood(f, spec.policies);
    assert f.nodes[i] in f.nodes;
    RowIsForNode(f, spec.defaultModel, AllAssigned(f, spec.policies), f.nodes[i]);
  }

  lemma SortedIds(f: Fleet, i: nat, j: nat)
    requires FleetOk(f) && Sorted(ById(), f.nodes) && i < j < |f.nodes|
    ensures Compare(f.nodes[i].id, f.nodes[j].id) < 0
  {
    assert ById()(f.nodes[i], f.nodes[j]);
    CompareZero(f.nodes[i].id, f.nodes[j].id);
  }

  /** Every planned node gets exactly one row, in id order. */
  lemma OneRowPerNode(spec: Spec, nodes: seq<Node>, models: seq<PlanModel>, minTokS: real)
    requires UniqueIds(nodes) && NamedModels(models)
    ensures var rows := PlanOf(spec, nodes, models, minTokS).rows;
            && |rows| == |nodes|
            && (forall i, j :: 0 <= i < j < |rows| ==> Compare(rows[i].nodeId, rows[j].nodeId) < 0)
            && (forall n :: n in nodes ==> exists i :: 0 <= i < |rows| && rows[i].nodeId == n.id)
  {
    hide PlanIn, Sorted, ById, AllAssigned, AllWarnings, FinalRow;
    var f := FleetOf(nodes, models, minTokS);
    FleetOfOk(nodes, models, minTokS);
    SameRows(f, spec);
    var rows := PlanIn(f, spec).rows;
    forall i, j | 0 <= i < j < |rows| ensures Compare(rows[i].nodeId, rows[j].nodeId) < 0 {
      SortedIds(f, i, j);
    }
    forall n | n in nodes ensures exists i :: 0 <= i < |rows| && rows[i].nodeId == n.id {
      assert n in f.nodes;
      var i :| 0 <= i < |f.nodes| && f.nodes[i] == n;
      assert rows[i].nodeId == n.id;
    }
  }

  lemma SameRows(f: Fleet, spec: Spec)
    requires FleetOk(f)
    ensures var rows := PlanIn(f, spec).rows;
            |rows| == |f.nodes| && forall i :: 0 <= i < |rows| ==> rows[i].nodeId == f.nodes[i].id
  {
    hide AllAssigned, AllWarnings, FinalRow;
    forall i | 0 <= i < |f.nodes| ensures PlanIn(f, spec).rows[i].nodeId == f.nodes[i].id { RowOfNode(f, spec, i); }
  }

  /** The plan's row of a node. */
  lemma RowOf(f: Fleet, spec: Spec, n: Node)
    requires FleetOk(f) && n in f.nodes
    ensures var r := FinalRow(f, spec.defaultModel, AllAssigned(f, spec.policies), n);
            r in PlanIn(f, spec).rows && r.nodeId == n.id
    ensures forall r :: r in PlanIn(f, spec).rows && r.nodeId == n.id ==> r == FinalRow(f, spec.defaultModel, AllAssigned(f, spec.policies), n)
  {
    hide AllAssigned, AllWarnings, FinalRow;
    SameRows(f, spec);
    var plan := PlanIn(f, spec);
    var k :| 0 <= k < |f.nodes| && f.nodes[k] == n;
    assert plan.rows[k] in plan.rows;
    forall r | r in plan.rows && r.nodeId == n.id ensures r == plan.rows[k] {
      var j :| 0 <= j < |plan.rows| && plan.rows[j] == r;
      assert f.nodes[j].id == f.nodes[k].id;
    }
  }

  lemma AssignedGood(f: Fleet, ps: seq<Policy>)
    requires FleetOk(f)
    ensures GoodRows(f, AllAssigned(f, ps))
    ensures GoodRows(f, Pins(f, ps))
  {
    hide Turn;
    var ts := Turns(f, ps);
    PinsFacts(f, ps);
    QuotasGood(f, Pins(f, ps), ts, |ts|);
    assert ts[..|ts|] == ts;
  }

  lemma RowIsForNode(f: Fleet, defaultModel: string, a: Assigned, n: Node)
    requires FleetOk(f) && GoodRows(f, a) && n in f.nodes
    ensures FinalRow(f, defaultModel, a, n).nodeId == n.id
  {
    hide FitsNode, EstRAM, PredictedTPS, MeetsSpeed;
  }

  /** What a row's reason promises about its node. */
  ghost predicate Earned(f: Fleet, spec: Spec, n: Node, row: Assignment)
  {
    match row.reason
    case ByPin => exists p :: p in spec.policies && PinnedBy(f, p, n.id) && row.modelId == p.modelId
    case ByReplicas => exists p :: p in spec.policies && p.mode.Replicas? && p.modelId in f.byModel && row.modelId == p.modelId && Eligible(f, p, n)
    case ByPercent => exists p :: p in spec.policies && p.mode.Percent? && p.modelId in f.byModel && row.modelId == p.modelId && Eligible(f, p, n)
    case ByDefault =>
      && spec.defaultModel in f.byModel && row.modelId == spec.defaultModel && !n.drained
      && FitsNode(f.byModel[spec.defaultModel], n) && MeetsSpeed(f.byModel[spec.defaultModel], n, f.minTokS)
    case Keep => row.modelId == n.currentModel != ""
    case NoModel => row.modelId == n.currentModel == ""
    case Benchmark => false
  }

  /** Where an entry of the finished table comes from. */
  lemma AssignedFrom(f: Fleet, ps: seq<Policy>, id: string)
    requires FleetOk(f) && id in AllAssigned(f, ps)
    ensures var row := AllAssigned(f, ps)[id];
            && id in f.byNode && row.nodeId == id
            && if id in Pins(f, ps)
               then row == Pins(f, ps)[id] && row.reason == ByPin && exists p :: p in ps && PinnedBy(f, p, id) && row.modelId == p.modelId
               else From(f, Turns(f, ps), row, id)
  {
    hide Turn, Eligible, FitsNode;
    var ts := Turns(f, ps);
    AssignedGood(f, ps);
    PinsFacts(f, ps);
    TurnFacts(f, Pins(f, ps), ts, 0, |ts|);
    assert ts[..0] == [] && ts[..|ts|] == ts && ts[0..|ts|] == ts;
  }

  lemma AssignedRowEarned(f: Fleet, spec: Spec, n: Node)
    requires FleetOk(f) && n in f.nodes && n.id in AllAssigned(f, spec.policies)
    ensures Earned(f, spec, n, AllAssigned(f, spec.policies)[n.id])
  {
    hide Turns, FitsNode, Eligible, MeetsSpeed, Quotas, Pins;
    AssignedFrom(f, spec.policies, n.id);
    if n.id !in Pins(f, spec.policies) {
      var row := AllAssigned(f, spec.policies)[n.id];
      var p :| p in Turns(f, spec.policies) && row.modelId == p.modelId && row.reason == ReasonOf(p.mode) && Eligible(f, p, f.byNode[n.id]);
      assert p in spec.policies;
    }
  }

  /** Every row is what its reason promises. */
  lemma EveryRowEarned(f: Fleet, spec: Spec, i: nat)
    requires FleetOk(f) && i < |f.nodes|
    ensures Earned(f, spec, f.nodes[i], PlanIn(f, spec).rows[i])
  {
    hide AllAssigned, AllWarnings, FitsNode, MeetsSpeed, EstRAM, PredictedTPS;
    var n := f.nodes[i];
    assert n in f.nodes;
    if n.id in AllAssigned(f, spec.policies) { AssignedRowEarned(f, spec, n); }
  }

  /** When a model fits a node.  On a reported budget: exactly when the smallest
      configuration of the agent's search does.  Without one: when weights, the
      KV cache of the planned context, the runtime and Android fit in its RAM. */
  lemma FitsExactly(m: PlanModel, n: Node)
    ensures var ctx := if m.ctxTrain > 0 then Min(m.ctxTrain, 16384) else 16384;
            if n.budgetBytes > 0
            then FitsNode(m, n) <==> MemPlan.NeedBytes(MemPlan.Weights(m.sizeBytes, m.residentBytes, m.shape), MemPlan.Config(Min(ctx, 4096), 1, "q8_0")) <= n.budgetBytes
            else FitsNode(m, n) <==> n.ramTotalBytes > 0x8000_0000 && EstRAM(m) + 0x8000_0000 <= n.ramTotalBytes
  {
    MemPlan.SearchIsExact(Weights(m), CtxSize(m), 1, "auto", n.budgetBytes);
    hide MemPlan.NeedBytes, MemPlan.LadderOf, EstRAM;
  }

  /** The planner's estimate is what the agent's search computes for one slot of
      the planned context with an exact cache, except that the search adds a
      tenth of the weights that need not stay resident, and believes no more
      resident bytes than the file has. */
  lemma EstimateAgrees(m: PlanModel)
    ensures var need := MemPlan.NeedBytes(MemPlan.Weights(m.sizeBytes, m.residentBytes, m.shape), MemPlan.Config(CtxSize(m), 1, "f16"));
            need == if m.residentBytes <= 0 then EstRAM(m)
                    else if m.residentBytes <= m.sizeBytes then EstRAM(m) + (m.sizeBytes - m.residentBytes) / 10
                    else EstRAM(m) - (m.residentBytes - m.sizeBytes)
  {
    var s, ctx := m.shape, CtxSize(m);
    hide CtxSize;
    assert ctx * (2 * s.layers * s.kvHeads * s.headDim * 2) == 2 * s.layers * ctx * s.kvHeads * s.headDim * 2;
  }

  /** Who may be given a model by quota: undrained, of a class asked for, fitting,
      and not known to be slower than the policy's threshold, or else the
      spec's. */
  lemma EligibleExactly(f: Fleet, p: Policy, n: Node)
    requires p.modelId in f.byModel
    ensures var m := f.byModel[p.modelId];
            var least := if p.minTokS > 0.0 then p.minTokS else f.minTokS;
            var weights := if m.residentBytes > 0 then m.residentBytes else m.sizeBytes;
            Eligible(f, p, n) <==>
              && !n.drained && (p.classes == [] || n.class_ in p.classes) && FitsNode(m, n)
              && (least <= 0.0 || n.genGBps <= 0.0 || weights == 0 || n.genGBps * 1000000000.0 >= least * weights as real)
  {
    hide FitsNode;
    var m := f.byModel[p.modelId];
    var least, weights := if p.minTokS > 0.0 then p.minTokS else f.minTokS, Resident(m);
    if n.genGBps > 0.0 && weights > 0 { QuotientAtLeast(n.genGBps * 1000000000.0, weights as real, least); }
  }

  lemma QuotientAtLeast(a: real, b: real, c: real)
    requires a > 0.0 && b > 0.0
    ensures a / b >= c <==> a >= c * b
    ensures a / b > 0.0
  {
    assert a / b * b == a;
  }

  /** What every row of a known model tells its node, whatever its reason: one
      slot of the model's context, at most 16384, any KV type, the estimate, and
      whether it fits. */
  lemma RowsAreComplete(f: Fleet, spec: Spec, i: nat)
    requires FleetOk(f) && i < |f.nodes|
    ensures var n, row := f.nodes[i], PlanIn(f, spec).rows[i];
            && row.nodeId == n.id
            && if row.modelId in f.byModel then
                 var m := f.byModel[row.modelId];
                 && row.ctxSize == (if m.ctxTrain > 0 then Min(m.ctxTrain, 16384) else 16384)
                 && row.slots == 1 && row.kvType == "auto" && row.estRAMBytes == EstRAM(m) && (row.fits <==> FitsNode(m, n))
               else row.reason in {Keep, NoModel} && row.fits && row.slots == 0
  {
    hide AllAssigned, AllWarnings, FitsNode, MeetsSpeed, EstRAM, PredictedTPS;
    var n := f.nodes[i];
    assert n in f.nodes && f.byNode[n.id] == n;
    AssignedGood(f, spec.policies);
  }

  /** Pins beat everything: a connected node that a ready model is pinned to
      gets a pin row, and this policy's own unless another one pins it too. */
  lemma PinsWin(f: Fleet, spec: Spec, p: Policy, i: nat)
    requires FleetOk(f) && p in spec.policies && i < |f.nodes| && PinnedBy(f, p, f.nodes[i].id)
    ensures PlanIn(f, spec).rows[i].reason == ByPin
    ensures (forall q :: q in spec.policies && PinnedBy(f, q, f.nodes[i].id) ==> q.modelId == p.modelId)
            ==> PlanIn(f, spec).rows[i] == Row(f.byModel[p.modelId], f.nodes[i], ByPin)
  {
    hide Turns, Row;
    var n := f.nodes[i];
    assert n in f.nodes;
    PinsFacts(f, spec.policies);
    var ts := Turns(f, spec.policies);
    TurnFacts(f, Pins(f, spec.policies), ts, 0, |ts|);
    assert ts[..0] == [] && ts[..|ts|] == ts;
    assert n.id in Pins(f, spec.policies);
    assert n.id in AllAssigned(f, spec.policies) && f.byNode[n.id] == n;
    AssignedFrom(f, spec.policies, n.id);
  }

  // ----- quotas ---------------------------------------------------------------------

  /** The nodes a plan gives to model for reason. */
  ghost function Holders(plan: Plan, model: string, reason: Reason): set<string>
  {
    set r | r in plan.rows && r.modelId == model && r.reason == reason :: r.nodeId
  }

  ghost function Ids(ns: seq<Node>): set<string>
  {
    set n | n in ns :: n.id
  }

  lemma {:induction false} IdsCount(ns: seq<Node>)
    requires UniqueIds(ns)
    ensures |Ids(ns)| == |ns|
  {
    if ns != [] {
      var init, last := ns[..|ns| - 1], ns[|ns| - 1];
      assert ns == init + [last];
      forall i, j | 0 <= i < |init| && 0 <= j < |init| && init[i].id == init[j].id ensures i == j {
        assert ns[i].id == ns[j].id;
      }
      IdsCount(init);
      assert last.id !in Ids(init) by {
        assert forall i :: 0 <= i < |init| ==> ns[i] == init[i] && ns[i].id != ns[|ns| - 1].id;
      }
      assert Ids(ns) == Ids(init) + {last.id};
    }
  }

  /** A row of the plan for a policy's model and reason is a row of its turn. */
  lemma HoldersAreChosen(f: Fleet, spec: Spec, i: nat)
    requires FleetOk(f) && OneQuotaPerModel(spec.policies) && i < |Turns(f, spec.policies)|
    ensures var p := Turns(f, spec.policies)[i];
            var a := Quotas(f, Pins(f, spec.policies), Turns(f, spec.policies)[..i]);
            p in Turns(f, spec.policies)
            && forall id :: id in AllAssigned(f, spec.policies) ==>
                 (AllAssigned(f, spec.policies)[id].modelId == p.modelId && AllAssigned(f, spec.policies)[id].reason == ReasonOf(p.mode)
                  <==> Takes(f, a, p, id))
    ensures var p := Turns(f, spec.policies)[i];
            var a := Quotas(f, Pins(f, spec.policies), Turns(f, spec.policies)[..i]);
            forall id :: Takes(f, a, p, id) ==> id in AllAssigned(f, spec.policies)
  {
    hide Turns, Pins, Quotas, Quota, Eligible, Chosen, Row, GoodRows, FleetOk, Takes;
    var ts, pins := Turns(f, spec.policies), Pins(f, spec.policies);
    var p, a := ts[i], Quotas(f, pins, ts[..i]);
    AssignedGood(f, spec.policies);
    QuotasGood(f, pins, ts, i);
    QuotasStep(f, pins, ts, i);
    TurnsKeep(f, pins, ts, i + 1, |ts|);
    assert ts[..|ts|] == ts;
    TurnTakes(f, a, p);
    var b := AllAssigned(f, spec.policies);
    forall id | id in b && !Takes(f, a, p, id) ensures !(b[id].modelId == p.modelId && b[id].reason == ReasonOf(p.mode)) {
      HeldElsewhere(f, spec, i, id);
    }
  }

  /** After its turn a policy has the nodes it takes, and nobody new. */
  lemma TurnTakes(f: Fleet, a: Assigned, p: Policy)
    requires FleetOk(f) && GoodRows(f, a) && p.modelId in f.byModel
    ensures var b := Quota(f, a, p);
            && (forall id :: Takes(f, a, p, id) ==> id in b && b[id].modelId == p.modelId && b[id].reason == ReasonOf(p.mode))
            && (forall id :: id in b && id !in a ==> Takes(f, a, p, id))
  {
    hide Quota, Eligible, Chosen, EstRAM, FitsNode, PredictedTPS, CtxSize;
    QuotaFacts(f, a, p);
  }

  lemma FromOther(f: Fleet, qs: seq<Policy>, row: Assignment, id: string, model: string)
    requires Ready(f, qs) && id in f.byNode && From(f, qs, row, id) && forall q :: q in qs ==> q.modelId != model
    ensures row.modelId != model
  {
    hide Eligible;
  }

  /** A node that turn i does not take holds its model, if any, by a pin or by
      another policy. */
  lemma HeldElsewhere(f: Fleet, spec: Spec, i: nat, id: string)
    requires FleetOk(f) && OneQuotaPerModel(spec.policies) && i < |Turns(f, spec.policies)| && id in AllAssigned(f, spec.policies)
    requires Turns(f, spec.policies)[i] in Turns(f, spec.policies)
             && !Takes(f, Quotas(f, Pins(f, spec.policies), Turns(f, spec.policies)[..i]), Turns(f, spec.policies)[i], id)
    ensures var p, row := Turns(f, spec.policies)[i], AllAssigned(f, spec.policies)[id];
            !(row.modelId == p.modelId && row.reason == ReasonOf(p.mode))
  {
    hide Turns, Pins, Quotas, Quota, Row, GoodRows, FleetOk, Takes, From, OnePolicyPerModel, OneQuotaPerModel;
    var ts, pins := Turns(f, spec.policies), Pins(f, spec.policies);
    var p, a, b := ts[i], Quotas(f, pins, ts[..i]), AllAssigned(f, spec.policies);
    assert b == Quotas(f, pins, ts);
    AssignedGood(f, spec.policies);
    TurnsOnce(f, spec.policies);
    QuotasGood(f, pins, ts, i);
    QuotasStep(f, pins, ts, i);
    TurnTakes(f, a, p);
    PinsAreFirst(f, pins);
    assert ts[..0] == [] && ts[..|ts|] == ts && ts[0..i] == ts[..i] && ts[i + 1..|ts|] == ts[i + 1..];
    if id in pins {
      AssignedFrom(f, spec.policies, id);
    } else if id in a {
      TurnsKeep(f, pins, ts, i, |ts|);
      TurnsGive(f, pins, ts, 0, i);
      OtherTurns(ts, ts[..i], i);
      FromOther(f, ts[..i], b[id], id, p.modelId);
    } else {
      TurnsGive(f, pins, ts, i + 1, |ts|);
      OtherTurns(ts, ts[i + 1..], i);
      FromOther(f, ts[i + 1..], b[id], id, p.modelId);
    }
  }

  /** No other turn is for the same model. */
  lemma OtherTurns(ts: seq<Policy>, others: seq<Policy>, i: nat)
    requires i < |ts| && OnePolicyPerModel(ts) && (others == ts[..i] || others == ts[i + 1..])
    ensures forall q :: q in others ==> q.modelId != ts[i].modelId
  {
    forall q | q in others ensures q.modelId != ts[i].modelId {
      var k :| 0 <= k < |others| && others[k] == q;
      if others == ts[..i] { assert ts[k] == q; } else { assert ts[i + 1 + k] == q; }
    }
  }

  /** The nodes a policy holds in the plan are the ones its turn chose. */
  lemma HeldIsChosen(f: Fleet, spec: Spec, i: nat)
    requires FleetOk(f) && OneQuotaPerModel(spec.policies) && i < |Turns(f, spec.policies)|
    ensures var p, a := Turns(f, spec.policies)[i], Quotas(f, Pins(f, spec.policies), Turns(f, spec.policies)[..i]);
            p in Turns(f, spec.policies) && Holders(PlanIn(f, spec), p.modelId, ReasonOf(p.mode)) == Ids(Chosen(f, a, p))
  {
    hide Turns, FitsNode, Eligible, Quotas, Pins, AllWarnings, EstRAM, PredictedTPS, FreeNodes;
    var ts := Turns(f, spec.policies);
    var p, a := ts[i], Quotas(f, Pins(f, spec.policies), ts[..i]);
    assert p in ts;
    HoldersAreChosen(f, spec, i);
    ChosenFacts(f, a, p);
    HoldersInTable(f, spec, p.modelId, p.mode);
    var c, held := Chosen(f, a, p), Holders(PlanIn(f, spec), p.modelId, ReasonOf(p.mode));
    forall id ensures id in held <==> id in Ids(c) { TakesIsId(f, a, p, id); }
  }

  lemma TakesIsId(f: Fleet, a: Assigned, p: Policy, id: string)
    requires FleetOk(f) && p.modelId in f.byModel
    ensures Takes(f, a, p, id) <==> id in Ids(Chosen(f, a, p))
  {
    hide Chosen;
    ChosenFacts(f, a, p);
    if id in Ids(Chosen(f, a, p)) {
      var n :| n in Chosen(f, a, p) && n.id == id;
      assert n in f.nodes;
    }
  }

  /** A policy gets exactly min(wanted, eligible nodes still free at its turn)
      nodes: free eligible ones, and the ones its model prefers. */
  lemma QuotaMet(f: Fleet, spec: Spec, i: nat)
    requires FleetOk(f) && OneQuotaPerModel(spec.policies) && i < |Turns(f, spec.policies)|
    ensures var p := Turns(f, spec.policies)[i];
            var free := FreeNodes(f, Quotas(f, Pins(f, spec.policies), Turns(f, spec.policies)[..i]), p);
            var held := Holders(PlanIn(f, spec), p.modelId, ReasonOf(p.mode));
            && |held| == Min(Max(Want(f, p), 0), |free|)
            && UniqueIds(free) && held <= Ids(free)
            && (forall x, y :: x in free && y in free && x.id in held && y.id !in held ==> PreferFor(p.modelId, x, y) <= 0)
  {
    hide Turns, Quotas, Pins, PlanIn, Eligible, Holders, PreferFor;
    var ts := Turns(f, spec.policies);
    var p, a := ts[i], Quotas(f, Pins(f, spec.policies), ts[..i]);
    HeldIsChosen(f, spec, i);
    ChosenFacts(f, a, p);
    var c, free := Chosen(f, a, p), FreeNodes(f, a, p);
    IdsCount(c);
    hide Chosen, Want;
    forall x | x in free && x.id in Ids(c) ensures x in c {
      var y :| y in c && y.id == x.id;
      assert y in free;
      SameIdSameNode(free, x, y);
    }
  }

  lemma SameIdSameNode(ns: seq<Node>, x: Node, y: Node)
    requires UniqueIds(ns) && x in ns && y in ns && x.id == y.id
    ensures x == y
  {
  }

  lemma QuotaRowIsAssigned(f: Fleet, defaultModel: string, a: Assigned, n: Node)
    requires FleetOk(f) && GoodRows(f, a) && n in f.nodes
    ensures var r := FinalRow(f, defaultModel, a, n);
            r.nodeId == n.id && (r.reason == ByReplicas || r.reason == ByPercent ==> n.id in a) && (n.id in a ==> r == a[n.id])
  {
    hide FitsNode, MeetsSpeed, EstRAM, PredictedTPS;
  }

  lemma HoldersInTable(f: Fleet, spec: Spec, model: string, mode: Mode)
    requires FleetOk(f)
    ensures var b := AllAssigned(f, spec.policies);
            forall id :: id in Holders(PlanIn(f, spec), model, ReasonOf(mode)) <==>
              id in b && b[id].modelId == model && b[id].reason == ReasonOf(mode)
  {
    hide AllAssigned, AllWarnings, FinalRow;
    var b, plan := AllAssigned(f, spec.policies), PlanIn(f, spec);
    AssignedGood(f, spec.policies);
    forall i | 0 <= i < |f.nodes|
      ensures var r := plan.rows[i];
              r.nodeId == f.nodes[i].id && (r.reason == ReasonOf(mode) ==> r.nodeId in b) && (r.nodeId in b ==> r == b[r.nodeId])
    {
      assert f.nodes[i] in f.nodes;
      QuotaRowIsAssigned(f, spec.defaultModel, b, f.nodes[i]);
    }
    forall id | id in b && b[id].modelId == model && b[id].reason == ReasonOf(mode)
      ensures id in Holders(plan, model, ReasonOf(mode))
    {
      var i :| 0 <= i < |f.nodes| && f.nodes[i] == f.byNode[id];
      assert plan.rows[i] in plan.rows;
    }
  }
}
