/** A plan does not depend on the order its inputs are listed in. */
module PlannerOrder {
  import opened Ordering
  import opened PlannerModel
  import opened Planner
  import opened PlannerFacts
  import opened PlannerSound

  lemma SameModelTable(models: seq<PlanModel>, models': seq<PlanModel>)
    requires UniqueModelIds(models) && UniqueModelIds(models') && multiset(models) == multiset(models')
    ensures ModelTable(models) == ModelTable(models')
  {
    ModelTableHolds(models);
    ModelTableHolds(models');
    SameElements(models, models');
  }

  lemma UniqueModelsPermute(s: seq<PlanModel>, t: seq<PlanModel>)
    requires UniqueModelIds(s) && multiset(s) == multiset(t)
    ensures UniqueModelIds(t)
  {
    assert Distinct(s);
    DistinctMultiset(s);
    DistinctMultiset(t);
    SameElements(s, t);
    forall i, j | 0 <= i < |t| && 0 <= j < |t| && t[i].id == t[j].id ensures i == j {
      assert t[i] in s && t[j] in s;
      assert t[i] == t[j];
    }
  }

  /** Any permutation of the nodes and of the ready models gives the same plan,
      rows and warnings. */
  lemma InputOrderIsIrrelevant(spec: Spec, nodes: seq<Node>, nodes': seq<Node>, models: seq<PlanModel>, models': seq<PlanModel>, minTokS: real)
    requires UniqueIds(nodes) && UniqueModelIds(models)
    requires multiset(nodes) == multiset(nodes') && multiset(models) == multiset(models')
    ensures PlanOf(spec, nodes', models', minTokS) == PlanOf(spec, nodes, models, minTokS)
  {
    ByIdIsTotal();
    ByIdSeparates(nodes);
    SortIgnoresOrder(ById(), nodes, nodes');
    UniqueModelsPermute(models, models');
    SameModelTable(models, models');
    hide PlanIn;
  }

  // ----- policies ------------------------------------------------------------------

  /** No node is pinned by two policies. */
  ghost predicate PinnedOnce(ps: seq<Policy>)
  {
    forall p, q, id :: p in ps && q in ps && p.mode.Pin? && q.mode.Pin? && id in p.nodes && id in q.nodes ==> p == q
  }

  lemma BiggerFirstSeparates(byModel: map<string, PlanModel>, ps: seq<Policy>)
    requires OnePolicyPerModel(ps)
    ensures Separates(BiggerFirst(byModel), ps)
  {
    hide EstRAM;
    var le := BiggerFirst(byModel);
    forall i, j | 0 <= i < |ps| && 0 <= j < |ps| && le(ps[i], ps[j]) && le(ps[j], ps[i]) ensures ps[i] == ps[j] {
      CompareFlips(ps[i].modelId, ps[j].modelId);
      CompareZero(ps[i].modelId, ps[j].modelId);
    }
  }

  lemma SameTurn(f: Fleet, ps: seq<Policy>, qs: seq<Policy>, mode: Mode)
    requires OnePolicyPerModel(ps) && multiset(ps) == multiset(qs) && (mode.Replicas? || mode.Percent?)
    ensures Turn(f, ps, mode) == Turn(f, qs, mode)
  {
    var g := ReadyIn(f.byModel, mode);
    OnePolicyOneQuota(ps);
    FilterIgnoresOrder(g, ps, qs);
    TurnOnce(f, ps, mode);
    BiggerFirstIsTotal(f.byModel);
    var a, b := Filter(g, ps), Filter(g, qs);
    SortSorts(BiggerFirst(f.byModel), a);
    SortSorts(BiggerFirst(f.byModel), b);
    BiggerFirstSeparates(f.byModel, Turn(f, ps, mode));
    SortedUnique(BiggerFirst(f.byModel), Turn(f, ps, mode), Turn(f, qs, mode));
  }

  lemma PinsWithin(f: Fleet, ps: seq<Policy>, qs: seq<Policy>, id: string)
    requires FleetOk(f) && PinnedOnce(ps) && (forall p :: p in ps <==> p in qs) && id in Pins(f, ps)
    ensures id in Pins(f, qs) && Pins(f, ps)[id] == Pins(f, qs)[id]
  {
    hide Row;
    PinsFacts(f, ps);
    PinsFacts(f, qs);
    var p :| p in ps && PinnedBy(f, p, id) && Pins(f, ps)[id] == Row(f.byModel[p.modelId], f.byNode[id], ByPin);
    assert p in qs;
    var q :| q in qs && PinnedBy(f, q, id) && Pins(f, qs)[id] == Row(f.byModel[q.modelId], f.byNode[id], ByPin);
    assert q in ps && p == q;
  }

  lemma SamePins(f: Fleet, ps: seq<Policy>, qs: seq<Policy>)
    requires FleetOk(f) && PinnedOnce(ps) && multiset(ps) == multiset(qs)
    ensures Pins(f, ps) == Pins(f, qs)
  {
    hide FleetOk;
    SameElements(ps, qs);
    forall id | id in Pins(f, ps) ensures id in Pins(f, qs) && Pins(f, ps)[id] == Pins(f, qs)[id] { PinsWithin(f, ps, qs, id); }
    forall id | id in Pins(f, qs) ensures id in Pins(f, ps) { PinsWithin(f, qs, ps, id); }
  }

  // ----- warnings, as a multiset -------------------------------------------------------

  ghost function Sum(g: Policy -> seq<Warning>, ps: seq<Policy>): multiset<Warning>
  {
    if ps == [] then multiset{} else Sum(g, ps[..|ps| - 1]) + multiset(g(ps[|ps| - 1]))
  }

  lemma SumSnoc(g: Policy -> seq<Warning>, ps: seq<Policy>, p: Policy)
    ensures Sum(g, ps + [p]) == Sum(g, ps) + multiset(g(p))
  {
    assert (ps + [p])[..|ps|] == ps;
  }

  lemma {:induction false} SumWithout(g: Policy -> seq<Warning>, ps: seq<Policy>, k: nat)
    requires k < |ps|
    ensures Sum(g, ps) == Sum(g, ps[..k] + ps[k + 1..]) + multiset(g(ps[k]))
  {
    hide Sum;
    var init, last := ps[..|ps| - 1], ps[|ps| - 1];
    assert init + [last] == ps;
    SumSnoc(g, init, last);
    if k == |init| {
      assert ps[..k] + ps[k + 1..] == init;
    } else {
      SumWithout(g, init, k);
      SumSnoc(g, init[..k] + init[k + 1..], last);
      assert init[..k] + init[k + 1..] + [last] == ps[..k] + ps[k + 1..];
    }
  }

  lemma {:induction false} SumIgnoresOrder(g: Policy -> seq<Warning>, ps: seq<Policy>, qs: seq<Policy>)
    requires multiset(ps) == multiset(qs)
    ensures Sum(g, ps) == Sum(g, qs)
    decreases |ps|
  {
    SameLength(ps, qs);
    if ps != [] {
      var k := FindLast(ps, qs);
      var init, rest := ps[..|ps| - 1], qs[..k] + qs[k + 1..];
      SumIgnoresOrder(g, init, rest);
      SumWithout(g, qs, k);
    }
  }

  function WaitingFor(f: Fleet): Policy -> seq<Warning>
  {
    (p: Policy) => if p.modelId in f.byModel then [] else [PolicyWaits(p.modelId, p.mode)]
  }

  function PinsOf(f: Fleet): Policy -> seq<Warning>
  {
    (p: Policy) => PinPolicyWarnings(f, map[], p)
  }

  lemma {:induction false} WaitingIsSum(f: Fleet, ps: seq<Policy>)
    ensures multiset(Waiting(f, ps)) == Sum(WaitingFor(f), ps)
  {
    if ps != [] { WaitingIsSum(f, ps[..|ps| - 1]); }
  }

  /** What a pin warns does not depend on the pins of other nodes. */
  lemma {:induction false} PinWarnsAlone(f: Fleet, a: Assigned, p: Policy, ids: seq<string>)
    requires FleetOk(f) && GoodRows(f, a) && ActivePin(f, p)
    requires Distinct(ids) && forall id :: id in ids ==> id !in a
    ensures PinNodesWarnings(f, a, p, ids) == PinNodesWarnings(f, map[], p, ids)
  {
    hide FitsNode, MeetsSpeed, Row;
    if ids != [] {
      var init, id := ids[..|ids| - 1], ids[|ids| - 1];
      assert forall x :: x in init ==> x in ids;
      DistinctInit(ids);
      PinWarnsAlone(f, a, p, init);
      PinNodesFacts(f, a, p, init);
      PinNodesFacts(f, map[], p, init);
      var b, c := PinNodes(f, a, p, init), PinNodes(f, map[], p, init);
      assert Free(b, id) && Free(c, id);
    }
  }

  lemma NotPinnedBefore(f: Fleet, init: seq<Policy>, p: Policy)
    requires FleetOk(f) && p.mode.Pin? && p !in init
    requires forall q, id :: q in init && q.mode.Pin? && id in q.nodes && id in p.nodes ==> q == p
    ensures GoodRows(f, Pins(f, init)) && forall id :: id in p.nodes ==> id !in Pins(f, init)
  {
    PinsFacts(f, init);
  }

  lemma {:induction false} PinWarningsAreSum(f: Fleet, ps: seq<Policy>)
    requires FleetOk(f) && PinnedOnce(ps) && Distinct(ps) && forall p :: p in ps && p.mode.Pin? ==> Distinct(p.nodes)
    ensures multiset(PinWarnings(f, ps)) == Sum(PinsOf(f), ps)
  {
    hide PinNodes, PinNodesWarnings, Row, FleetOk, GoodRows;
    if ps != [] {
      var init, p := ps[..|ps| - 1], ps[|ps| - 1];
      assert p in ps && forall q :: q in init ==> q in ps;
      DistinctInit(ps);
      PinWarningsAreSum(f, init);
      if ActivePin(f, p) {
        NotPinnedBefore(f, init, p);
        PinWarnsAlone(f, Pins(f, init), p, p.nodes);
      }
    }
  }

  /** Permuting the policies of a validated spec gives the same rows, and the
      same warnings up to their order. */
  lemma PolicyOrderIsIrrelevant(spec: Spec, policies: seq<Policy>, nodes: seq<Node>, models: seq<PlanModel>, minTokS: real)
    requires UniqueIds(nodes) && NamedModels(models)
    requires OnePolicyPerModel(spec.policies) && PinnedOnce(spec.policies)
    requires forall p :: p in spec.policies && p.mode.Pin? ==> Distinct(p.nodes)
    requires multiset(spec.policies) == multiset(policies)
    ensures var plan, plan' := PlanOf(spec, nodes, models, minTokS), PlanOf(spec.(policies := policies), nodes, models, minTokS);
            plan.rows == plan'.rows && multiset(plan.warnings) == multiset(plan'.warnings)
  {
    var f := FleetOf(nodes, models, minTokS);
    var ps := spec.policies;
    FleetOfOk(nodes, models, minTokS);
    SameTurn(f, ps, policies, Replicas);
    SameTurn(f, ps, policies, Percent);
    SamePins(f, ps, policies);
    assert Turns(f, ps) == Turns(f, policies);
    SameElements(ps, policies);
    OnePolicyMeans(ps);
    DistinctMultiset(ps);
    DistinctMultiset(policies);
    WaitingIsSum(f, ps);
    WaitingIsSum(f, policies);
    PinWarningsAreSum(f, ps);
    PinWarningsAreSum(f, policies);
    SumIgnoresOrder(WaitingFor(f), ps, policies);
    SumIgnoresOrder(PinsOf(f), ps, policies);
    hide FleetOf, Turns, Pins, Quotas, QuotaWarnings, Waiting, PinWarnings, TooSmall, SlowDefaults, FinalRows, FleetOk, OnePolicyPerModel;
  }
}
