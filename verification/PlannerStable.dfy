/** Plans do not flap: feeding a plan back into the planner while nodes switch
    to what it gave them makes the same plan again. */
module PlannerStable {
  import opened Ordering
  import opened PlannerModel
  import opened Planner
  import opened PlannerFacts
  import opened PlannerSound

  /** Reasons that make the controller send a desired runtime. */
  predicate Assigning(r: Reason)
  {
    r == ByPin || r == ByReplicas || r == ByPercent || r == ByDefault || r == Benchmark
  }

  /** n' is n except for the model it serves and the model it was given. */
  predicate SamePhone(n: Node, n': Node)
  {
    n' == n.(currentModel := n'.currentModel, assignedModel := n'.assignedModel)
  }

  /** What the next snapshot of n may show after its row: the planner's
      feedback, and either no switch yet or a switch to the assigned model.  A
      kept model counts as not assigned, or (marked as a benchmark's) as
      assigned. */
  predicate Moves(row: Assignment, n: Node, n': Node)
  {
    && SamePhone(n, n')
    && (n'.assignedModel == row.modelId || (!Assigning(row.reason) && n'.assignedModel == ""))
    && (n'.currentModel == n.currentModel || (Assigning(row.reason) && n'.currentModel == row.modelId))
  }

  ghost predicate Beat(plan: Plan, n: Node, n': Node)
  {
    SamePhone(n, n') && forall r :: r in plan.rows && r.nodeId == n.id ==> Moves(r, n, n')
  }

  /** The same phones, seen again while they act on plan. */
  ghost predicate Feedback(plan: Plan, nodes: seq<Node>, nodes': seq<Node>)
  {
    |nodes| == |nodes'| && forall i :: 0 <= i < |nodes| ==> Beat(plan, nodes[i], nodes'[i])
  }

  // ----- sorting the next snapshot -----------------------------------------------------

  lemma FeedbackAppend(plan: Plan, s: seq<Node>, s': seq<Node>, x: Node, x': Node)
    requires Feedback(plan, s, s') && Beat(plan, x, x')
    ensures Feedback(plan, s + [x], s' + [x'])
  {
    hide Beat;
  }

  lemma {:induction false} InsertParallel(plan: Plan, s: seq<Node>, s': seq<Node>, x: Node, x': Node)
    requires Feedback(plan, s, s') && Beat(plan, x, x')
    ensures Feedback(plan, Insert(ById(), s, x), Insert(ById(), s', x'))
  {
    hide Beat, Compare;
    SameIds(plan);
    FeedbackAppend(plan, s, s', x, x');
    if s != [] && !ById()(s[|s| - 1], x) {
      InsertParallel(plan, s[..|s| - 1], s'[..|s'| - 1], x, x');
      FeedbackAppend(plan, Insert(ById(), s[..|s| - 1], x), Insert(ById(), s'[..|s'| - 1], x'), s[|s| - 1], s'[|s'| - 1]);
    }
  }

  lemma SameIds(plan: Plan)
    ensures forall n, n' :: Beat(plan, n, n') ==> n.id == n'.id
  {
  }

  lemma {:induction false} SortParallel(plan: Plan, s: seq<Node>, s': seq<Node>)
    requires Feedback(plan, s, s')
    ensures Feedback(plan, Sort(ById(), s), Sort(ById(), s'))
  {
    hide Beat;
    if s != [] {
      SortParallel(plan, s[..|s| - 1], s'[..|s'| - 1]);
      InsertParallel(plan, Sort(ById(), s[..|s| - 1]), Sort(ById(), s'[..|s'| - 1]), s[|s| - 1], s'[|s'| - 1]);
    }
  }

  /** f' is the fleet seen after f acted on plan. */
  ghost predicate Next(plan: Plan, f: Fleet, f': Fleet)
  {
    && FleetOk(f) && FleetOk(f') && f.byModel == f'.byModel && f.minTokS == f'.minTokS
    && Feedback(plan, f.nodes, f'.nodes)
  }

  lemma NextFleet(plan: Plan, nodes: seq<Node>, nodes': seq<Node>, models: seq<PlanModel>, minTokS: real)
    requires UniqueIds(nodes) && NamedModels(models) && Feedback(plan, nodes, nodes')
    ensures UniqueIds(nodes')
    ensures Next(plan, FleetOf(nodes, models, minTokS), FleetOf(nodes', models, minTokS))
  {
    forall i, j | 0 <= i < |nodes'| && 0 <= j < |nodes'| && nodes'[i].id == nodes'[j].id ensures i == j {
      assert Beat(plan, nodes[i], nodes'[i]) && Beat(plan, nodes[j], nodes'[j]);
      assert nodes[i].id == nodes[j].id;
    }
    FleetOfOk(nodes, models, minTokS);
    FleetOfOk(nodes', models, minTokS);
    SortParallel(plan, nodes, nodes');
  }

  lemma NextNode(plan: Plan, f: Fleet, f': Fleet, id: string)
    requires Next(plan, f, f')
    ensures id in f.byNode <==> id in f'.byNode
    ensures id in f.byNode ==> Beat(plan, f.byNode[id], f'.byNode[id]) && SamePhone(f.byNode[id], f'.byNode[id])
  {
    if id in f.byNode {
      var i :| 0 <= i < |f.nodes| && f.nodes[i] == f.byNode[id];
      assert Beat(plan, f.nodes[i], f'.nodes[i]);
      assert f'.nodes[i] in f'.nodes;
    }
    if id in f'.byNode {
      var i :| 0 <= i < |f'.nodes| && f'.nodes[i] == f'.byNode[id];
      assert Beat(plan, f.nodes[i], f'.nodes[i]);
      assert f.nodes[i] in f.nodes;
    }
  }

  /** Fit, speed and the row itself do not look at what a phone serves. */
  lemma SamePhoneSameRow(m: PlanModel, n: Node, n': Node, reason: Reason, minTokS: real)
    requires SamePhone(n, n')
    ensures FitsNode(m, n) == FitsNode(m, n') && MeetsSpeed(m, n, minTokS) == MeetsSpeed(m, n', minTokS)
    ensures Row(m, n, reason) == Row(m, n', reason)
  {
  }

  // ----- pins -----------------------------------------------------------------------------

  lemma SamePinNode(plan: Plan, f: Fleet, f': Fleet, a: Assigned, p: Policy, id: string)
    requires Next(plan, f, f') && ActivePin(f, p)
    ensures PinNode(f, a, p, id) == PinNode(f', a, p, id)
    ensures PinNodeWarnings(f, a, p, id) == PinNodeWarnings(f', a, p, id)
  {
    hide FitsNode, MeetsSpeed, Row, Feedback;
    NextNode(plan, f, f', id);
    if id in f.byNode {
      SamePhoneSameRow(f.byModel[p.modelId], f.byNode[id], f'.byNode[id], ByPin, EffectiveMinTokS(p, f.minTokS));
    }
  }

  lemma {:induction false} SamePinNodes(plan: Plan, f: Fleet, f': Fleet, a: Assigned, p: Policy, ids: seq<string>)
    requires Next(plan, f, f') && ActivePin(f, p)
    ensures PinNodes(f, a, p, ids) == PinNodes(f', a, p, ids)
    ensures PinNodesWarnings(f, a, p, ids) == PinNodesWarnings(f', a, p, ids)
  {
    hide PinNode, PinNodeWarnings, Feedback;
    if ids != [] {
      var init := ids[..|ids| - 1];
      SamePinNodes(plan, f, f', a, p, init);
      SamePinNode(plan, f, f', PinNodes(f, a, p, init), p, ids[|ids| - 1]);
    }
  }

  lemma {:induction false} SamePins(plan: Plan, f: Fleet, f': Fleet, ps: seq<Policy>)
    requires Next(plan, f, f')
    ensures Pins(f, ps) == Pins(f', ps) && PinWarnings(f, ps) == PinWarnings(f', ps)
  {
    if ps != [] {
      var init, p := ps[..|ps| - 1], ps[|ps| - 1];
      SamePins(plan, f, f', init);
      if ActivePin(f, p) { SamePinNodes(plan, f, f', Pins(f, init), p, p.nodes); }
    }
  }

  // ----- one turn ----------------------------------------------------------------------------

  /** Between a node the turn took and a free one it left, the next snapshot
      strictly prefers the one it took. */
  lemma PairStable(m: string, x: Node, y: Node, x': Node, y': Node)
    requires PreferFor(m, x, y) <= 0 && x.id != y.id
    requires SamePhone(x, x') && SamePhone(y, y')
    requires x'.assignedModel == m && (x'.currentModel == x.currentModel || x'.currentModel == m)
    requires y'.assignedModel != m || y.currentModel == m
    requires y'.currentModel == y.currentModel || (y'.assignedModel != m && y'.currentModel != m)
    ensures PreferFor(m, y', x') > 0
  {
    TieBreakStrict(x, y);
    hide Compare;
  }

  lemma TieBreakStrict(x: Node, y: Node)
    requires x.id != y.id
    ensures TieBreak(x, y) != 0 && (TieBreak(x, y) < 0 <==> TieBreak(y, x) > 0)
  {
    CompareFlips(x.id, y.id);
    CompareZero(x.id, y.id);
  }

  /** Both nodes were given the model, one by the turn and the other as the
      default: the next snapshot may prefer the other one exactly when it has
      still to switch and the first has too, or would lose a tie. */
  predicate Risky(m: string, x: Node, y: Node)
  {
    y.currentModel != m && (x.currentModel != m || TieBreak(y, x) < 0)
  }

  lemma SafePair(m: string, x: Node, y: Node, x': Node, y': Node)
    requires PreferFor(m, x, y) <= 0 && x.id != y.id && !Risky(m, x, y)
    requires SamePhone(x, x') && SamePhone(y, y') && x'.assignedModel == m == y'.assignedModel
    requires x'.currentModel == x.currentModel || x'.currentModel == m
    requires y'.currentModel == y.currentModel || y'.currentModel == m
    ensures PreferFor(m, y', x') > 0
  {
    TieBreakStrict(x, y);
    TieBreakStrict(y, x);
    assert TieBreak(y', x') == TieBreak(y, x);
    hide TieBreak;
  }

  lemma RiskyPair(m: string, x: Node, y: Node, x': Node, y': Node)
    requires x.id != y.id && Risky(m, x, y)
    requires SamePhone(x, x') && SamePhone(y, y') && x'.assignedModel == m == y'.assignedModel
    requires x'.currentModel == x.currentModel && y'.currentModel == m
    ensures PreferFor(m, x', y') > 0
  {
    TieBreakStrict(y, x);
    assert TieBreak(x', y') == TieBreak(x, y);
    hide TieBreak;
  }

  lemma {:induction false} SameFilter(plan: Plan, s: seq<Node>, s': seq<Node>, g: Node -> bool, g': Node -> bool)
    requires Feedback(plan, s, s')
    requires forall n, n' :: Beat(plan, n, n') ==> g(n) == g'(n')
    ensures Feedback(plan, Filter(g, s), Filter(g', s'))
  {
    hide Beat;
    if s != [] {
      SameFilter(plan, s[..|s| - 1], s'[..|s'| - 1], g, g');
      assert Beat(plan, s[|s| - 1], s'[|s'| - 1]);
    }
  }

  lemma SameEligible(plan: Plan, f: Fleet, f': Fleet, p: Policy)
    requires f.byModel == f'.byModel && f.minTokS == f'.minTokS && p.modelId in f.byModel
    ensures forall n, n' :: Beat(plan, n, n') ==> Eligible(f, p, n) == Eligible(f', p, n')
  {
    hide FitsNode, MeetsSpeed, MatchesClass;
    forall n, n' | Beat(plan, n, n') ensures Eligible(f, p, n) == Eligible(f', p, n') {
      SamePhoneSameRow(f.byModel[p.modelId], n, n', ByPin, EffectiveMinTokS(p, f.minTokS));
    }
  }

  /** The two snapshots offer a turn the same pool, the same free nodes, and so
      it wants and gets the same number. */
  lemma SameOffer(plan: Plan, f: Fleet, f': Fleet, a: Assigned, p: Policy)
    requires Next(plan, f, f') && p.modelId in f.byModel
    ensures Pool(f, p) == Pool(f', p) && Want(f, p) == Want(f', p) && Got(f, a, p) == Got(f', a, p)
    ensures Feedback(plan, FreeNodes(f, a, p), FreeNodes(f', a, p))
  {
    hide Eligible, Beat;
    SameEligible(plan, f, f', p);
    SameIds(plan);
    SameFilter(plan, f.nodes, f'.nodes, EligibleIn(f, p), EligibleIn(f', p));
    SameFilter(plan, f.nodes, f'.nodes, EligibleFree(f, a, p), EligibleFree(f', a, p));
  }

  /** However the nodes act on the plan, the next snapshot prefers every node
      the turn took to every free one it left. */
  ghost predicate TurnHolds(plan: Plan, f: Fleet, a: Assigned, p: Policy)
    requires p.modelId in f.byModel
  {
    forall x, y, x', y' :: x in Chosen(f, a, p) && y in FreeNodes(f, a, p) && y !in Chosen(f, a, p) && x.id != y.id
                           && Beat(plan, x, x') && Beat(plan, y, y')
      ==> PreferFor(p.modelId, y', x') > 0
  }

  lemma OutsideBoth<T>(s: set<T>, t: set<T>) returns (x: T, y: T)
    requires |s| == |t| && s != t
    ensures x in s && x !in t && y in t && y !in s
  {
    SubsetOfSameSize(s, t);
    SubsetOfSameSize(t, s);
    x :| x in s && x !in t;
    y :| y in t && y !in s;
  }

  lemma Swapped(plan: Plan, f: Fleet, a: Assigned, p: Policy, x: Node, y: Node, x': Node, y': Node)
    requires p.modelId in f.byModel && TurnHolds(plan, f, a, p)
    requires x in Chosen(f, a, p) && y in FreeNodes(f, a, p) && y !in Chosen(f, a, p) && x.id != y.id
    requires Beat(plan, x, x') && Beat(plan, y, y')
    ensures PreferFor(p.modelId, y', x') > 0
  {
    hide Chosen, FreeNodes, PreferFor, Beat;
  }

  /** A turn takes the same nodes from both snapshots. */
  lemma SameChoice(plan: Plan, f: Fleet, f': Fleet, a: Assigned, p: Policy)
    requires Next(plan, f, f') && p.modelId in f.byModel && TurnHolds(plan, f, a, p)
    ensures Ids(Chosen(f, a, p)) == Ids(Chosen(f', a, p))
  {
    hide Chosen, FreeNodes, PreferFor, Want, Pool, TurnHolds;
    SameOffer(plan, f, f', a, p);
    ChosenFacts(f, a, p);
    ChosenFacts(f', a, p);
    SameIds(plan);
    var c, c', free, free' := Chosen(f, a, p), Chosen(f', a, p), FreeNodes(f, a, p), FreeNodes(f', a, p);
    IdsCount(c);
    IdsCount(c');
    if Ids(c) != Ids(c') {
      var i, j := OutsideBoth(Ids(c), Ids(c'));
      var x :| x in c && x.id == i;
      var y' :| y' in c' && y'.id == j;
      var k :| 0 <= k < |free| && free[k] == x;
      var l :| 0 <= l < |free'| && free'[l] == y';
      var x', y := free'[k], free[l];
      assert x' in free' && y in free && Beat(plan, x, x') && Beat(plan, y, y');
      Swapped(plan, f, a, p, x, y, x', y');
      assert false;
    }
  }

  lemma SameTurn(plan: Plan, f: Fleet, f': Fleet, a: Assigned, p: Policy)
    requires Next(plan, f, f') && p.modelId in f.byModel && TurnHolds(plan, f, a, p) && GoodRows(f, a) && GoodRows(f', a)
    ensures Quota(f, a, p) == Quota(f', a, p)
  {
    hide *;
    NextModels(plan, f, f');
    var b, b' := Quota(f, a, p), Quota(f', a, p);
    forall id ensures (id in b <==> id in b') && (id in b ==> b[id] == b'[id]) {
      SameEntry(plan, f, f', a, p, id);
    }
  }

  lemma NextModels(plan: Plan, f: Fleet, f': Fleet)
    requires Next(plan, f, f')
    ensures f.byModel == f'.byModel
  {
    hide FleetOk, Feedback;
  }

  lemma SameEntry(plan: Plan, f: Fleet, f': Fleet, a: Assigned, p: Policy, id: string)
    requires Next(plan, f, f') && p.modelId in f.byModel && TurnHolds(plan, f, a, p) && GoodRows(f, a) && GoodRows(f', a)
    ensures id in Quota(f, a, p) <==> id in Quota(f', a, p)
    ensures id in Quota(f, a, p) ==> Quota(f, a, p)[id] == Quota(f', a, p)[id]
  {
    assert FleetOk(f) && FleetOk(f') && f.byModel == f'.byModel;
    hide Next, FleetOk, GoodRows, Feedback, Beat, Quota, Chosen, Row, TurnHolds, Eligible;
    SameChoice(plan, f, f', a, p);
    QuotaFacts(f, a, p);
    QuotaFacts(f', a, p);
    TakesIsId(f, a, p, id);
    TakesIsId(f', a, p, id);
    NextNode(plan, f, f', id);
    if id in f.byNode {
      SamePhoneSameRow(f.byModel[p.modelId], f.byNode[id], f'.byNode[id], ReasonOf(p.mode), 0.0);
    }
  }

  // ----- all the turns ----------------------------------------------------------------------

  /** The plan gives the default model both by its own quota policy and as the
      default, and one of the latter nodes may overtake one of the former: both
      have still to switch, or the latter has to and wins ties. */
  ghost predicate ExposedIn(f: Fleet, spec: Spec)
  {
    exists p, x, y :: p in spec.policies && IsQuota(p) && Exposes(f, spec, p, x, y)
  }

  ghost predicate Exposes(f: Fleet, spec: Spec, p: Policy, x: Node, y: Node)
  {
    && p.modelId == spec.defaultModel && p.modelId in f.byModel && x in f.nodes && y in f.nodes
    && x.id in Holders(PlanIn(f, spec), p.modelId, ReasonOf(p.mode)) && y.id in Holders(PlanIn(f, spec), p.modelId, ByDefault)
    && Eligible(f, p, y) && Risky(p.modelId, x, y)
  }

  /** A node still free at a turn ends with its model by that turn or as the
      default, or not at all. */
  lemma RowAgrees(f: Fleet, spec: Spec, i: nat, n: Node)
    requires FleetOk(f) && OneQuotaPerModel(spec.policies) && i < |Turns(f, spec.policies)|
    requires n in f.nodes && n.id !in Quotas(f, Pins(f, spec.policies), Turns(f, spec.policies)[..i])
    ensures var p, r := Turns(f, spec.policies)[i], FinalRow(f, spec.defaultModel, AllAssigned(f, spec.policies), n);
            p in Turns(f, spec.policies) && IsQuota(p) && p in spec.policies && r.nodeId == n.id
            && (!Assigning(r.reason) ==> r.modelId == n.currentModel)
            && if Takes(f, Quotas(f, Pins(f, spec.policies), Turns(f, spec.policies)[..i]), p, n.id)
               then r.modelId == p.modelId && r.reason == ReasonOf(p.mode)
               else Assigning(r.reason) && r.modelId == p.modelId ==> r.reason == ByDefault && p.modelId == spec.defaultModel
  {
    hide Turns, Pins, Quotas, Eligible, FitsNode, MeetsSpeed, Chosen, EstRAM, PredictedTPS;
    var ts, all := Turns(f, spec.policies), AllAssigned(f, spec.policies);
    assert ts[i] in ts;
    AssignedGood(f, spec.policies);
    RowIsForNode(f, spec.defaultModel, all, n);
    HoldersAreChosen(f, spec, i);
    TurnsOnce(f, spec.policies);
    PinsFacts(f, spec.policies);
    TurnFacts(f, Pins(f, spec.policies), ts, 0, i);
    assert ts[..0] == [];
    PinsAreFirst(f, Pins(f, spec.policies));
    assert n.id !in Pins(f, spec.policies);
    if n.id in all {
      AssignedFrom(f, spec.policies, n.id);
      var q :| q in ts && all[n.id].modelId == q.modelId && all[n.id].reason == ReasonOf(q.mode) && Eligible(f, q, f.byNode[n.id]);
      var k :| 0 <= k < |ts| && ts[k] == q;
      assert ts[k].modelId == ts[i].modelId ==> k == i;
    }
  }

  lemma HolderRow(f: Fleet, spec: Spec, n: Node, model: string, reason: Reason)
    requires FleetOk(f) && n in f.nodes
    ensures var r := FinalRow(f, spec.defaultModel, AllAssigned(f, spec.policies), n);
            n.id in Holders(PlanIn(f, spec), model, reason) <==> r.modelId == model && r.reason == reason
  {
    hide PlanIn, FinalRow, AllAssigned;
    RowOf(f, spec, n);
  }

  lemma BeatRow(f: Fleet, spec: Spec, n: Node, n': Node)
    requires FleetOk(f) && n in f.nodes && Beat(PlanIn(f, spec), n, n')
    ensures Moves(FinalRow(f, spec.defaultModel, AllAssigned(f, spec.policies), n), n, n')
  {
    hide PlanIn, FinalRow, AllAssigned, Moves, SamePhone;
    RowOf(f, spec, n);
  }

  /** Every turn holds, save that of the default model in an exposed plan. */
  lemma TurnIsStable(f: Fleet, spec: Spec, i: nat)
    requires FleetOk(f) && OneQuotaPerModel(spec.policies) && i < |Turns(f, spec.policies)|
    requires Turns(f, spec.policies)[i].modelId == spec.defaultModel ==> !ExposedIn(f, spec)
    ensures Turns(f, spec.policies)[i] in Turns(f, spec.policies)
    ensures TurnHolds(PlanIn(f, spec), f, Quotas(f, Pins(f, spec.policies), Turns(f, spec.policies)[..i]), Turns(f, spec.policies)[i])
  {
    hide Turns, Pins, Quotas, Eligible, Chosen, AllAssigned, FinalRow, PlanIn, PreferFor, Beat, FreeNodes, ExposedIn;
    var ts := Turns(f, spec.policies);
    var p, a, plan := ts[i], Quotas(f, Pins(f, spec.policies), ts[..i]), PlanIn(f, spec);
    assert p in ts;
    forall x, y, x', y' | x in Chosen(f, a, p) && y in FreeNodes(f, a, p) && y !in Chosen(f, a, p) && x.id != y.id
                          && Beat(plan, x, x') && Beat(plan, y, y')
      ensures PreferFor(p.modelId, y', x') > 0
    {
      PairHolds(f, spec, i, x, y, x', y');
    }
  }

  lemma FreeIs(f: Fleet, a: Assigned, p: Policy, n: Node)
    requires FleetOk(f) && GoodRows(f, a) && p.modelId in f.byModel
    ensures n in FreeNodes(f, a, p) <==> n in f.nodes && Eligible(f, p, n) && n.id !in a
    ensures n in Chosen(f, a, p) ==> n in FreeNodes(f, a, p)
    ensures n in f.nodes ==> (Takes(f, a, p, n.id) <==> n in Chosen(f, a, p))
  {
    hide Eligible, Chosen;
    ChosenFacts(f, a, p);
    FreeMeansAbsent(f, a, n.id);
  }

  lemma PairHolds(f: Fleet, spec: Spec, i: nat, x: Node, y: Node, x': Node, y': Node)
    requires FleetOk(f) && OneQuotaPerModel(spec.policies) && i < |Turns(f, spec.policies)|
    requires Turns(f, spec.policies)[i].modelId == spec.defaultModel ==> !ExposedIn(f, spec)
    requires Turns(f, spec.policies)[i] in Turns(f, spec.policies) && x.id != y.id
    requires var p, a := Turns(f, spec.policies)[i], Quotas(f, Pins(f, spec.policies), Turns(f, spec.policies)[..i]);
             x in Chosen(f, a, p) && y in FreeNodes(f, a, p) && y !in Chosen(f, a, p)
    requires Beat(PlanIn(f, spec), x, x') && Beat(PlanIn(f, spec), y, y')
    ensures PreferFor(Turns(f, spec.policies)[i].modelId, y', x') > 0
  {
    hide Turns, Pins, Quotas, Eligible, Chosen, FreeNodes, AllAssigned, FinalRow, PlanIn, PreferFor, Beat, Takes, Holders, Risky;
    var p, a := Turns(f, spec.policies)[i], Quotas(f, Pins(f, spec.policies), Turns(f, spec.policies)[..i]);
    AssignedGood(f, spec.policies);
    QuotasGood(f, Pins(f, spec.policies), Turns(f, spec.policies), i);
    ChosenFacts(f, a, p);
    FreeIs(f, a, p, x);
    FreeIs(f, a, p, y);
    RowAgrees(f, spec, i, x);
    RowAgrees(f, spec, i, y);
    BeatRow(f, spec, x, x');
    BeatRow(f, spec, y, y');
    var s := FinalRow(f, spec.defaultModel, AllAssigned(f, spec.policies), y);
    assert p.modelId != "";
    if Assigning(s.reason) && s.modelId == p.modelId {
      HolderRow(f, spec, x, p.modelId, ReasonOf(p.mode));
      HolderRow(f, spec, y, p.modelId, ByDefault);
      assert Risky(p.modelId, x, y) ==> Exposes(f, spec, p, x, y);
      SafePair(p.modelId, x, y, x', y');
    } else {
      PairStable(p.modelId, x, y, x', y');
    }
  }

  lemma SameWhy(plan: Plan, f: Fleet, f': Fleet, p: Policy)
    requires Next(plan, f, f') && p.modelId in f.byModel
    ensures WhyNoFit(f, p) == WhyNoFit(f', p)
  {
    hide FitsNode, MatchesClass;
    forall i | 0 <= i < |f.nodes|
      ensures f.nodes[i] in f.nodes && f'.nodes[i] in f'.nodes && SamePhone(f.nodes[i], f'.nodes[i])
      ensures FitsNode(f.byModel[p.modelId], f.nodes[i]) == FitsNode(f.byModel[p.modelId], f'.nodes[i])
    {
      assert Beat(plan, f.nodes[i], f'.nodes[i]);
      SamePhoneSameRow(f.byModel[p.modelId], f.nodes[i], f'.nodes[i], ByPin, 0.0);
    }
  }

  lemma SameWarning(plan: Plan, f: Fleet, f': Fleet, a: Assigned, p: Policy)
    requires Next(plan, f, f') && p.modelId in f.byModel
    ensures QuotaWarning(f, a, p) == QuotaWarning(f', a, p)
  {
    hide WhyNoFit, Pool, Want, Got, Feedback;
    SameWhy(plan, f, f', p);
    SameOffer(plan, f, f', a, p);
  }

  lemma {:induction false} SameQuotas(spec: Spec, f: Fleet, f': Fleet, i: nat)
    requires Next(PlanIn(f, spec), f, f') && OneQuotaPerModel(spec.policies)
    requires i <= |Turns(f, spec.policies)|
    requires forall k :: 0 <= k < i && Turns(f, spec.policies)[k].modelId == spec.defaultModel ==> !ExposedIn(f, spec)
    ensures var ts, pins := Turns(f, spec.policies), Pins(f, spec.policies);
            Quotas(f, pins, ts[..i]) == Quotas(f', pins, ts[..i]) && QuotaWarnings(f, pins, ts[..i]) == QuotaWarnings(f', pins, ts[..i])
  {
    hide Turns, Pins, PlanIn, Quota, QuotaWarning, TurnHolds, Feedback, FleetOk, GoodRows, OneQuotaPerModel, ExposedIn, AllAssigned;
    if i > 0 {
      var ts, pins, plan := Turns(f, spec.policies), Pins(f, spec.policies), PlanIn(f, spec);
      SameQuotas(spec, f, f', i - 1);
      hide Next, Ready;
      assert ts[..i][..i - 1] == ts[..i - 1] && ts[..i][i - 1] == ts[i - 1];
      var a, p := Quotas(f, pins, ts[..i - 1]), ts[i - 1];
      TurnIsStable(f, spec, i - 1);
      AssignedGood(f, spec.policies);
      QuotasGood(f, pins, ts, i - 1);
      SamePins(plan, f, f', spec.policies);
      AssignedGood(f', spec.policies);
      QuotasGood(f', pins, ts, i - 1);
      SameTurn(plan, f, f', a, p);
      SameWarning(plan, f, f', a, p);
    }
  }

  // ----- default and keep ------------------------------------------------------------------------

  lemma SameFinalRow(f: Fleet, f': Fleet, defaultModel: string, a: Assigned, n: Node, n': Node)
    requires f.byModel == f'.byModel && f.minTokS == f'.minTokS && SamePhone(n, n')
    requires Moves(FinalRow(f, defaultModel, a, n), n, n')
    ensures FinalRow(f, defaultModel, a, n) == FinalRow(f', defaultModel, a, n')
    ensures DefaultDoesNotFit(f, defaultModel, a, n) == DefaultDoesNotFit(f', defaultModel, a, n')
    ensures SlowDefault(f, defaultModel, a, n) == SlowDefault(f', defaultModel, a, n')
  {
    hide FitsNode, MeetsSpeed, Row, EstRAM;
    if defaultModel in f.byModel { SamePhoneSameRow(f.byModel[defaultModel], n, n', ByDefault, f.minTokS); }
    if n.currentModel in f.byModel { SamePhoneSameRow(f.byModel[n.currentModel], n, n', ByDefault, f.minTokS); }
  }

  lemma {:induction false} SameTails(f: Fleet, f': Fleet, defaultModel: string, a: Assigned, ns: seq<Node>, ns': seq<Node>)
    requires f.byModel == f'.byModel && f.minTokS == f'.minTokS && |ns| == |ns'|
    requires forall i :: 0 <= i < |ns| ==> SamePhone(ns[i], ns'[i]) && Moves(FinalRow(f, defaultModel, a, ns[i]), ns[i], ns'[i])
    ensures TooSmall(f, defaultModel, a, ns) == TooSmall(f', defaultModel, a, ns')
    ensures SlowDefaults(f, defaultModel, a, ns) == SlowDefaults(f', defaultModel, a, ns')
    ensures FinalRows(f, defaultModel, a, ns) == FinalRows(f', defaultModel, a, ns')
  {
    hide FinalRow, DefaultDoesNotFit, SlowDefault, Moves;
    if ns != [] {
      var k := |ns| - 1;
      SameTails(f, f', defaultModel, a, ns[..k], ns'[..k]);
      SameFinalRow(f, f', defaultModel, a, ns[k], ns'[k]);
      var r, r' := FinalRows(f, defaultModel, a, ns), FinalRows(f', defaultModel, a, ns');
      assert r[..k] == FinalRows(f, defaultModel, a, ns[..k]) && r'[..k] == FinalRows(f', defaultModel, a, ns'[..k]);
      Rejoin(r, r');
    }
  }

  lemma BeatMoves(f: Fleet, f': Fleet, spec: Spec, i: nat)
    requires Next(PlanIn(f, spec), f, f') && i < |f.nodes|
    ensures SamePhone(f.nodes[i], f'.nodes[i])
    ensures Moves(FinalRow(f, spec.defaultModel, AllAssigned(f, spec.policies), f.nodes[i]), f.nodes[i], f'.nodes[i])
  {
    hide AllAssigned, AllWarnings, FinalRow, Moves, SamePhone;
    RowOfNode(f, spec, i);
    assert PlanIn(f, spec).rows[i] in PlanIn(f, spec).rows;
    assert Beat(PlanIn(f, spec), f.nodes[i], f'.nodes[i]);
  }

  lemma {:induction false} SameWaiting(f: Fleet, f': Fleet, ps: seq<Policy>)
    requires f.byModel == f'.byModel
    ensures Waiting(f, ps) == Waiting(f', ps)
  {
    if ps != [] { SameWaiting(f, f', ps[..|ps| - 1]); }
  }

  lemma SameEnding(f: Fleet, f': Fleet, spec: Spec)
    requires Next(PlanIn(f, spec), f, f')
    ensures var a := AllAssigned(f, spec.policies);
            && TooSmall(f, spec.defaultModel, a, f.nodes) == TooSmall(f', spec.defaultModel, a, f'.nodes)
            && SlowDefaults(f, spec.defaultModel, a, f.nodes) == SlowDefaults(f', spec.defaultModel, a, f'.nodes)
            && FinalRows(f, spec.defaultModel, a, f.nodes) == FinalRows(f', spec.defaultModel, a, f'.nodes)
  {
    hide AllAssigned, TooSmall, SlowDefaults, FinalRows, FinalRow, Moves, AllWarnings;
    FeedbackLength(PlanIn(f, spec), f, f');
    forall i | 0 <= i < |f.nodes|
      ensures SamePhone(f.nodes[i], f'.nodes[i])
      ensures Moves(FinalRow(f, spec.defaultModel, AllAssigned(f, spec.policies), f.nodes[i]), f.nodes[i], f'.nodes[i])
    {
      BeatMoves(f, f', spec, i);
    }
    SameTails(f, f', spec.defaultModel, AllAssigned(f, spec.policies), f.nodes, f'.nodes);
  }

  lemma SameModelsSameTurns(plan: Plan, f: Fleet, f': Fleet, ps: seq<Policy>)
    requires Next(plan, f, f')
    ensures f.byModel == f'.byModel && Turns(f, ps) == Turns(f', ps)
  {
    hide FleetOk, Feedback;
  }

  /** Equal stages make equal plans. */
  lemma SameStages(f: Fleet, f': Fleet, spec: Spec)
    requires f.byModel == f'.byModel && Turns(f, spec.policies) == Turns(f', spec.policies)
    requires Waiting(f, spec.policies) == Waiting(f', spec.policies)
    requires Pins(f, spec.policies) == Pins(f', spec.policies) && PinWarnings(f, spec.policies) == PinWarnings(f', spec.policies)
    requires var ts, pins := Turns(f, spec.policies), Pins(f, spec.policies);
             Quotas(f, pins, ts) == Quotas(f', pins, ts) && QuotaWarnings(f, pins, ts) == QuotaWarnings(f', pins, ts)
    requires var a := AllAssigned(f, spec.policies);
             && TooSmall(f, spec.defaultModel, a, f.nodes) == TooSmall(f', spec.defaultModel, a, f'.nodes)
             && SlowDefaults(f, spec.defaultModel, a, f.nodes) == SlowDefaults(f', spec.defaultModel, a, f'.nodes)
             && FinalRows(f, spec.defaultModel, a, f.nodes) == FinalRows(f', spec.defaultModel, a, f'.nodes)
    ensures PlanIn(f', spec) == PlanIn(f, spec)
  {
    hide Turns, Pins, Quotas, QuotaWarnings, Waiting, PinWarnings, TooSmall, SlowDefaults, FinalRows;
  }

  lemma SamePlan(f: Fleet, f': Fleet, spec: Spec)
    requires Next(PlanIn(f, spec), f, f') && OneQuotaPerModel(spec.policies) && !ExposedIn(f, spec)
    ensures PlanIn(f', spec) == PlanIn(f, spec)
  {
    hide *;
    var ts := Turns(f, spec.policies);
    SameModelsSameTurns(PlanIn(f, spec), f, f', spec.policies);
    SameWaiting(f, f', spec.policies);
    SamePins(PlanIn(f, spec), f, f', spec.policies);
    SameQuotas(spec, f, f', |ts|);
    assert ts[..|ts|] == ts;
    SameEnding(f, f', spec);
    SameStages(f, f', spec);
  }

  lemma FeedbackLength(plan: Plan, f: Fleet, f': Fleet)
    requires Next(plan, f, f')
    ensures |f.nodes| == |f'.nodes|
  {
  }

  // ----- main results ---------------------------------------------------------------------------------

  ghost predicate Exposed(spec: Spec, nodes: seq<Node>, models: seq<PlanModel>, minTokS: real)
  {
    ExposedIn(FleetOf(nodes, models, minTokS), spec)
  }

  /** Plans do not flap.  For a spec with one quota a model: unless the plan is
      exposed, planning the fleet that acts on it, with any subset of the
      assigned nodes switched, makes that plan again, rows and warnings. */
  lemma PlanDoesNotFlap(spec: Spec, nodes: seq<Node>, nodes': seq<Node>, models: seq<PlanModel>, minTokS: real)
    requires UniqueIds(nodes) && NamedModels(models)
    requires OneQuotaPerModel(spec.policies) && !Exposed(spec, nodes, models, minTokS)
    requires Feedback(PlanOf(spec, nodes, models, minTokS), nodes, nodes')
    ensures UniqueIds(nodes')
    ensures PlanOf(spec, nodes', models, minTokS) == PlanOf(spec, nodes, models, minTokS)
  {
    hide PlanIn, Feedback, ExposedIn;
    NextFleet(PlanOf(spec, nodes, models, minTokS), nodes, nodes', models, minTokS);
    SamePlan(FleetOf(nodes, models, minTokS), FleetOf(nodes', models, minTokS), spec);
  }

  /** A plan that is not exposed stays so while the nodes act on it. */
  lemma StaysUnexposed(spec: Spec, nodes: seq<Node>, nodes': seq<Node>, models: seq<PlanModel>, minTokS: real)
    requires UniqueIds(nodes) && NamedModels(models) && OneQuotaPerModel(spec.policies)
    requires !Exposed(spec, nodes, models, minTokS) && Feedback(PlanOf(spec, nodes, models, minTokS), nodes, nodes')
    ensures !Exposed(spec, nodes', models, minTokS)
  {
    hide PlanIn, Eligible, Holders, Beat, OneQuotaPerModel, TieBreak;
    PlanDoesNotFlap(spec, nodes, nodes', models, minTokS);
    var f, f', plan := FleetOf(nodes, models, minTokS), FleetOf(nodes', models, minTokS), PlanOf(spec, nodes, models, minTokS);
    FleetOfOk(nodes, models, minTokS);
    NextFleet(plan, nodes, nodes', models, minTokS);
    hide Feedback, FleetOf, UniqueIds;
    if Exposed(spec, nodes', models, minTokS) {
      var p, x', y' :| p in spec.policies && IsQuota(p) && Exposes(f', spec, p, x', y');
      ExposedBefore(f, f', spec, p, x', y');
      assert false;
    }
  }

  lemma ExposedBefore(f: Fleet, f': Fleet, spec: Spec, p: Policy, x': Node, y': Node)
    requires Next(PlanIn(f, spec), f, f') && PlanIn(f', spec) == PlanIn(f, spec)
    requires p in spec.policies && IsQuota(p) && Exposes(f', spec, p, x', y')
    ensures ExposedIn(f, spec)
  {
    hide PlanIn, Eligible, Holders, FinalRow, AllAssigned, FleetOk, Feedback, TieBreak;
    var x := BeforeOf(f, f', spec, x');
    var y := BeforeOf(f, f', spec, y');
    HolderRow(f, spec, x, p.modelId, ReasonOf(p.mode));
    HolderRow(f, spec, y, p.modelId, ByDefault);
    BeatRow(f, spec, x, x');
    BeatRow(f, spec, y, y');
    SameEligible(PlanIn(f, spec), f, f', p);
    SameTie(x, y, x', y');
    assert Exposes(f, spec, p, x, y);
  }

  lemma SameTie(x: Node, y: Node, x': Node, y': Node)
    requires SamePhone(x, x') && SamePhone(y, y')
    ensures TieBreak(y', x') == TieBreak(y, x)
  {
    hide Compare;
  }

  /** A node of the next snapshot, as it was. */
  lemma BeforeOf(f: Fleet, f': Fleet, spec: Spec, n': Node) returns (n: Node)
    requires Next(PlanIn(f, spec), f, f') && n' in f'.nodes
    ensures n in f.nodes && Beat(PlanIn(f, spec), n, n') && n.id == n'.id
  {
    hide PlanIn, Beat;
    SameIds(PlanIn(f, spec));
    var k :| 0 <= k < |f'.nodes| && f'.nodes[k] == n';
    n := f.nodes[k];
  }

  /** A run of the planner: each snapshot is the last one after acting on the
      plan made from it. */
  ghost predicate Run(spec: Spec, history: seq<seq<Node>>, models: seq<PlanModel>, minTokS: real)
  {
    forall i :: 0 <= i < |history| - 1 ==> Feedback(PlanOf(spec, history[i], models, minTokS), history[i], history[i + 1])
  }

  /** However long the nodes take to switch, and in whatever order, the plan
      made first is made at every later replan. */
  lemma {:induction false} PlanIsFixedPoint(spec: Spec, history: seq<seq<Node>>, models: seq<PlanModel>, minTokS: real, k: nat)
    requires k < |history| && Run(spec, history, models, minTokS)
    requires UniqueIds(history[0]) && NamedModels(models)
    requires OneQuotaPerModel(spec.policies) && !Exposed(spec, history[0], models, minTokS)
    ensures UniqueIds(history[k]) && !Exposed(spec, history[k], models, minTokS)
    ensures PlanOf(spec, history[k], models, minTokS) == PlanOf(spec, history[0], models, minTokS)
  {
    hide PlanOf, Feedback, UniqueIds, Exposed, OneQuotaPerModel;
    if k > 0 {
      PlanIsFixedPoint(spec, history, models, minTokS, k - 1);
      assert Feedback(PlanOf(spec, history[k - 1], models, minTokS), history[k - 1], history[k - 1 + 1]);
      PlanDoesNotFlap(spec, history[k - 1], history[k], models, minTokS);
      StaysUnexposed(spec, history[k - 1], history[k], models, minTokS);
    }
  }
}
