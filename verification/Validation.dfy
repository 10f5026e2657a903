/** models.Validate (controller/models/planner.go): the loops that collect
    errors accept exactly the specs the planner's theorems speak of. */
module Validation {
  import opened Ordering
  import opened PlannerModel
  import opened PlannerSound
  import opened PlannerOrder
  import opened PlannerFacts
  import opened PlannerStable
  import opened PlannerFlap
  import opened Planner

  datatype Error =
    | UnknownModel(index: nat, model: string)
    | MoreThanOnePolicy(index: nat)
    | UnknownClass(index: nat, class_: string)
    | PinNeedsNodes(index: nat)
    | PinToUnknownNode(index: nat, node: string)
    | NodeAlreadyPinned(index: nat, node: string, to: string)
    | ReplicasBelowOne(index: nat)
    | PercentOutOfRange(index: nat)
    | BadMode(index: nat)
    | PercentOver100(class_: string, percent: real)
    | UnknownDefault(model: string)

  // ----- what is accepted --------------------------------------------------------

  ghost predicate PolicyOk(p: Policy, nodeIds: seq<string>, modelIds: seq<string>)
  {
    && p.modelId in modelIds
    && (forall c :: c in p.classes ==> c in CLASSES)
    && match p.mode
       case Pin => p.nodes != [] && forall n :: n in p.nodes ==> n in nodeIds
       case Replicas => p.replicas >= 1
       case Percent => 0.0 < p.percent <= 100.0
       case UnknownMode(_) => false
  }

  /** Every node named by a pin, in order. */
  ghost function PinList(ps: seq<Policy>): seq<string>
  {
    if ps == [] then []
    else
      var p := ps[|ps| - 1];
      PinList(ps[..|ps| - 1]) + (if p.mode.Pin? then p.nodes else [])
  }

  ghost function ClassPercent(ps: seq<Policy>, c: string): real
  {
    if ps == [] then 0.0
    else
      var p := ps[|ps| - 1];
      ClassPercent(ps[..|ps| - 1], c) + (if p.mode.Percent? && MatchesClass(p.classes, c) then p.percent else 0.0)
  }

  /** One policy a model, each policy well formed, no node pinned twice, and no
      device class promised more than 100%. */
  ghost predicate Accepts(spec: Spec, nodeIds: seq<string>, modelIds: seq<string>)
  {
    && (forall i :: 0 <= i < |spec.policies| ==> PolicyOk(spec.policies[i], nodeIds, modelIds))
    && OnePolicyPerModel(spec.policies)
    && Distinct(PinList(spec.policies))
    && (forall c :: c in CLASSES ==> ClassPercent(spec.policies, c) <= 100.0)
    && (spec.defaultModel == "" || spec.defaultModel in modelIds)
  }

  // ----- the loops -----------------------------------------------------------------

  /** Nodes pinned so far, when nothing was wrong so far. */
  ghost predicate Records(pinned: map<string, string>, list: seq<string>)
  {
    (forall n :: n in pinned <==> n in list) && forall n :: n in pinned ==> pinned[n] != ""
  }

  method CheckPins(i: nat, p: Policy, nodeIds: seq<string>, pinned0: map<string, string>, ghost before: seq<string>)
    returns (errs: seq<Error>, pinned: map<string, string>)
    ensures Records(pinned0, before) && Distinct(before) && p.modelId != "" ==>
              && (errs == [] <==> (forall n :: n in p.nodes ==> n in nodeIds) && Distinct(before + p.nodes))
              && (errs == [] ==> Records(pinned, before + p.nodes))
  {
    errs, pinned := [], pinned0;
    ghost var clean := Records(pinned0, before) && Distinct(before) && p.modelId != "";
    assert before + p.nodes[..0] == before;
    for k := 0 to |p.nodes|
      invariant clean ==> (errs == [] <==> (forall n :: n in p.nodes[..k] ==> n in nodeIds) && Distinct(before + p.nodes[..k]))
      invariant clean && errs == [] ==> Records(pinned, before + p.nodes[..k])
    {
      var n := p.nodes[k];
      assert p.nodes[..k + 1] == p.nodes[..k] + [n];
      assert before + p.nodes[..k + 1] == before + p.nodes[..k] + [n];
      DistinctSnoc(before + p.nodes[..k], n);
      if n !in nodeIds {
        errs := errs + [PinToUnknownNode(i, n)];
      } else if n in pinned && pinned[n] != "" {
        errs := errs + [NodeAlreadyPinned(i, n, pinned[n])];
      } else {
        pinned := pinned[n := p.modelId];
      }
    }
    assert p.nodes[..|p.nodes|] == p.nodes;
  }

  lemma DistinctSnoc<T(!new)>(s: seq<T>, x: T)
    ensures Distinct(s + [x]) <==> Distinct(s) && x !in s
  {
    var t := s + [x];
    if Distinct(t) {
      DistinctInit(t);
      assert t[..|t| - 1] == s;
    }
  }

  lemma OnePolicySnoc(s: seq<Policy>, p: Policy)
    ensures OnePolicyPerModel(s + [p]) <==> OnePolicyPerModel(s) && forall i :: 0 <= i < |s| ==> s[i].modelId != p.modelId
  {
    var t := s + [p];
    assert forall i :: 0 <= i < |s| ==> t[i] == s[i];
    if OnePolicyPerModel(t) {
      forall i, j | 0 <= i < |s| && 0 <= j < |s| && s[i].modelId == s[j].modelId ensures i == j {
        assert t[i].modelId == t[j].modelId;
      }
      forall i | 0 <= i < |s| ensures s[i].modelId != p.modelId { assert t[i].modelId == t[|s|].modelId ==> i == |s|; }
    }
  }

  method CheckClasses(i: nat, classes: seq<string>) returns (errs: seq<Error>)
    ensures errs == [] <==> forall c :: c in classes ==> c in CLASSES
  {
    errs := [];
    for k := 0 to |classes|
      invariant errs == [] <==> forall c :: c in classes[..k] ==> c in CLASSES
    {
      assert classes[..k + 1] == classes[..k] + [classes[k]];
      if classes[k] !in CLASSES { errs := errs + [UnknownClass(i, classes[k])]; }
    }
    assert classes[..|classes|] == classes;
  }

  function Total(m: map<string, real>, c: string): real { if c in m then m[c] else 0.0 }

  method AddPercent(p: Policy, sums0: map<string, real>) returns (sums: map<string, real>)
    ensures forall c :: c in CLASSES ==> Total(sums, c) == Total(sums0, c) + (if MatchesClass(p.classes, c) then p.percent else 0.0)
  {
    sums := sums0;
    for k := 0 to |CLASSES|
      invariant forall j :: 0 <= j < k ==>
        Total(sums, CLASSES[j]) == Total(sums0, CLASSES[j]) + (if MatchesClass(p.classes, CLASSES[j]) then p.percent else 0.0)
      invariant forall j :: k <= j < |CLASSES| ==> Total(sums, CLASSES[j]) == Total(sums0, CLASSES[j])
    {
      ClassesDistinct();
      var c := CLASSES[k];
      if MatchesClass(p.classes, c) { sums := sums[c := Total(sums, c) + p.percent]; }
    }
  }

  lemma ClassesDistinct()
    ensures Distinct(CLASSES)
  {
    assert |CLASSES[0]| == |CLASSES[4]| == 2 && CLASSES[0][1] != CLASSES[4][1] && CLASSES[0][0] == CLASSES[4][0];
    assert CLASSES[0][0] == 'x' && CLASSES[0][1] == 's' && CLASSES[4][1] == 'l';
    assert CLASSES[1][0] == 's' && CLASSES[2][0] == 'm' && CLASSES[3][0] == 'l';
  }

  /** The checks of one policy's mode. */
  method CheckMode(i: nat, p: Policy, nodeIds: seq<string>, pinned0: map<string, string>, sums0: map<string, real>, ghost before: seq<string>)
    returns (errs: seq<Error>, pinned: map<string, string>, sums: map<string, real>)
    ensures Records(pinned0, before) && Distinct(before) && p.modelId != "" ==>
              && (errs == [] <==>
                    (match p.mode
                     case Pin => p.nodes != [] && (forall n :: n in p.nodes ==> n in nodeIds) && Distinct(before + p.nodes)
                     case Replicas => p.replicas >= 1
                     case Percent => 0.0 < p.percent <= 100.0
                     case UnknownMode(_) => false))
              && (errs == [] ==> Records(pinned, before + if p.mode.Pin? then p.nodes else []))
    ensures forall c :: c in CLASSES ==> Total(sums, c) == Total(sums0, c) + (if p.mode.Percent? && MatchesClass(p.classes, c) then p.percent else 0.0)
  {
    errs, pinned, sums := [], pinned0, sums0;
    assert before + [] == before;
    match p.mode {
      case Pin =>
        if p.nodes == [] { errs := [PinNeedsNodes(i)]; }
        var more;
        more, pinned := CheckPins(i, p, nodeIds, pinned0, before);
        errs := errs + more;
      case Replicas =>
        if p.replicas < 1 { errs := [ReplicasBelowOne(i)]; }
      case Percent =>
        if !(0.0 < p.percent <= 100.0) { errs := [PercentOutOfRange(i)]; }
        sums := AddPercent(p, sums0);
      case UnknownMode(_) =>
        errs := [BadMode(i)];
    }
  }

  ghost predicate GoodPolicies(ps: seq<Policy>, nodeIds: seq<string>, modelIds: seq<string>)
  {
    (forall i :: 0 <= i < |ps| ==> PolicyOk(ps[i], nodeIds, modelIds)) && OnePolicyPerModel(ps) && Distinct(PinList(ps))
  }

  function PinsOfPolicy(p: Policy): seq<string> { if p.mode.Pin? then p.nodes else [] }

  lemma GoodStep(ps: seq<Policy>, i: nat, nodeIds: seq<string>, modelIds: seq<string>)
    requires i < |ps|
    ensures PinList(ps[..i + 1]) == PinList(ps[..i]) + PinsOfPolicy(ps[i])
    ensures GoodPolicies(ps[..i + 1], nodeIds, modelIds) <==>
              && GoodPolicies(ps[..i], nodeIds, modelIds)
              && PolicyOk(ps[i], nodeIds, modelIds)
              && (forall k :: 0 <= k < i ==> ps[k].modelId != ps[i].modelId)
              && Distinct(PinList(ps[..i]) + PinsOfPolicy(ps[i]))
  {
    hide PolicyOk, OnePolicyPerModel;
    assert ps[..i + 1][..i] == ps[..i] && ps[..i + 1] == ps[..i] + [ps[i]];
    OnePolicySnoc(ps[..i], ps[i]);
    DistinctPrefix(PinList(ps[..i]), PinsOfPolicy(ps[i]));
  }

  /** Everything checked about one policy; clean means that nothing was wrong
      with the policies before it. */
  method CheckPolicy(i: nat, p: Policy, nodeIds: seq<string>, modelIds: seq<string>, seen: set<string>, pinned0: map<string, string>,
                     sums0: map<string, real>, ghost before: seq<string>)
    returns (errs: seq<Error>, pinned: map<string, string>, sums: map<string, real>)
    requires "" !in modelIds
    ensures Records(pinned0, before) && Distinct(before) ==>
              && (errs == [] <==> PolicyOk(p, nodeIds, modelIds) && p.modelId !in seen && Distinct(before + PinsOfPolicy(p)))
              && (errs == [] ==> Records(pinned, before + PinsOfPolicy(p)))
    ensures forall c :: c in CLASSES ==> Total(sums, c) == Total(sums0, c) + (if p.mode.Percent? && MatchesClass(p.classes, c) then p.percent else 0.0)
  {
    hide Records, Total, Distinct;
    var found: seq<Error> := [];
    if p.modelId !in modelIds { found := found + [UnknownModel(i, p.modelId)]; }
    if p.modelId in seen { found := found + [MoreThanOnePolicy(i)]; }
    var classes := CheckClasses(i, p.classes);
    var mode;
    mode, pinned, sums := CheckMode(i, p, nodeIds, pinned0, sums0, before);
    errs := found + classes + mode;
    assert before + [] == before;
    assert errs == [] <==> found == [] && classes == [] && mode == [];
  }

  method CheckPolicies(ps: seq<Policy>, nodeIds: seq<string>, modelIds: seq<string>) returns (errs: seq<Error>, sums: map<string, real>)
    requires "" !in modelIds
    ensures errs == [] <==> GoodPolicies(ps, nodeIds, modelIds)
    ensures forall c :: c in CLASSES ==> Total(sums, c) == ClassPercent(ps, c)
  {
    errs, sums := [], map[];
    var seen: set<string> := {};
    var pinned: map<string, string> := map[];
    NothingChecked(ps, nodeIds, modelIds);
    hide GoodPolicies, PolicyOk, Records, Total, ClassPercent, PinsOfPolicy, PinList, Distinct, CLASSES, MatchesClass, OnePolicyPerModel;
    for i := 0 to |ps|
      invariant forall m :: m in seen <==> exists k :: 0 <= k < i && ps[k].modelId == m
      invariant errs == [] <==> GoodPolicies(ps[..i], nodeIds, modelIds)
      invariant errs == [] ==> Records(pinned, PinList(ps[..i])) && Distinct(PinList(ps[..i]))
      invariant forall c :: c in CLASSES ==> Total(sums, c) == ClassPercent(ps[..i], c)
    {
      GoodStep(ps, i, nodeIds, modelIds);
      PercentStep(ps, i);
      var found;
      found, pinned, sums := CheckPolicy(i, ps[i], nodeIds, modelIds, seen, pinned, sums, PinList(ps[..i]));
      seen := seen + {ps[i].modelId};
      errs := errs + found;
    }
    assert ps[..|ps|] == ps;
  }

  lemma NothingChecked(ps: seq<Policy>, nodeIds: seq<string>, modelIds: seq<string>)
    ensures GoodPolicies(ps[..0], nodeIds, modelIds) && Records(map[], PinList(ps[..0])) && Distinct(PinList(ps[..0]))
    ensures forall c :: Total(map[], c) == ClassPercent(ps[..0], c)
  {
  }

  lemma PercentStep(ps: seq<Policy>, i: nat)
    requires i < |ps|
    ensures forall c :: ClassPercent(ps[..i + 1], c) ==
              ClassPercent(ps[..i], c) + (if ps[i].mode.Percent? && MatchesClass(ps[i].classes, c) then ps[i].percent else 0.0)
  {
    assert ps[..i + 1][..i] == ps[..i];
  }

  lemma DistinctPrefix<T>(s: seq<T>, t: seq<T>)
    ensures Distinct(s + t) ==> Distinct(s)
  {
    if Distinct(s + t) {
      forall i, j | 0 <= i < |s| && 0 <= j < |s| && s[i] == s[j] ensures i == j { assert (s + t)[i] == (s + t)[j]; }
    }
  }

  /** Validate returns no error exactly for the specs Accepts describes. */
  method Validate(spec: Spec, nodeIds: seq<string>, modelIds: seq<string>) returns (errs: seq<Error>)
    requires "" !in modelIds
    ensures errs == [] <==> Accepts(spec, nodeIds, modelIds)
  {
    var sums;
    errs, sums := CheckPolicies(spec.policies, nodeIds, modelIds);
    ghost var before := errs;
    for k := 0 to |CLASSES|
      invariant errs == [] <==> before == [] && forall j :: 0 <= j < k ==> ClassPercent(spec.policies, CLASSES[j]) <= 100.0
    {
      var c := CLASSES[k];
      assert c in CLASSES;
      if Total(sums, c) > 100.0 { errs := errs + [PercentOver100(c, Total(sums, c))]; }
    }
    if spec.defaultModel != "" && spec.defaultModel !in modelIds { errs := errs + [UnknownDefault(spec.defaultModel)]; }
  }

  // ----- what acceptance gives the planner --------------------------------------------

  lemma {:induction false} PinListParts(ps: seq<Policy>, k: nat)
    requires k < |ps| && ps[k].mode.Pin?
    ensures exists a, b :: PinList(ps) == a + ps[k].nodes + b && (forall j :: 0 <= j < k && ps[j].mode.Pin? ==> forall n :: n in ps[j].nodes ==> n in a)
  {
    var m := |ps| - 1;
    var tail := if ps[m].mode.Pin? then ps[m].nodes else [];
    if k == m {
      PinListHolds(ps[..m]);
      assert PinList(ps) == PinList(ps[..m]) + ps[k].nodes + [];
    } else {
      PinListParts(ps[..m], k);
      var a, b :| PinList(ps[..m]) == a + ps[k].nodes + b && (forall j :: 0 <= j < k && ps[..m][j].mode.Pin? ==> forall n :: n in ps[..m][j].nodes ==> n in a);
      assert PinList(ps) == a + ps[k].nodes + (b + tail);
      assert forall j :: 0 <= j < k ==> ps[..m][j] == ps[j];
    }
  }

  lemma {:induction false} PinListHolds(ps: seq<Policy>)
    ensures forall j :: 0 <= j < |ps| && ps[j].mode.Pin? ==> forall n :: n in ps[j].nodes ==> n in PinList(ps)
  {
    if ps != [] { PinListHolds(ps[..|ps| - 1]); }
  }

  /** An accepted spec meets the hypotheses of the order theorem: no node is
      pinned by two policies, nor twice by one. */
  lemma AcceptedPinsOnce(spec: Spec, nodeIds: seq<string>, modelIds: seq<string>)
    requires Accepts(spec, nodeIds, modelIds)
    ensures PinnedOnce(spec.policies)
    ensures forall p :: p in spec.policies && p.mode.Pin? ==> Distinct(p.nodes)
  {
    var ps := spec.policies;
    forall p | p in ps && p.mode.Pin? ensures Distinct(p.nodes) {
      var k :| 0 <= k < |ps| && ps[k] == p;
      PinListParts(ps, k);
      var a, b :| PinList(ps) == a + p.nodes + b && (forall j :: 0 <= j < k && ps[j].mode.Pin? ==> forall n :: n in ps[j].nodes ==> n in a);
      MiddleDistinct(a, p.nodes, b);
    }
    forall p, q, id | p in ps && q in ps && p.mode.Pin? && q.mode.Pin? && id in p.nodes && id in q.nodes ensures p == q {
      var i :| 0 <= i < |ps| && ps[i] == p;
      var j :| 0 <= j < |ps| && ps[j] == q;
      if i < j { NotTwice(ps, i, j, id); }
      if j < i { NotTwice(ps, j, i, id); }
    }
  }

  lemma MiddleDistinct<T(!new)>(a: seq<T>, m: seq<T>, b: seq<T>)
    requires Distinct(a + m + b)
    ensures Distinct(m) && forall x :: x in m ==> x !in a
  {
    var s := a + m + b;
    forall i, j | 0 <= i < |m| && 0 <= j < |m| && m[i] == m[j] ensures i == j { assert s[|a| + i] == s[|a| + j]; }
    forall x | x in m ensures x !in a {
      var i :| 0 <= i < |m| && m[i] == x;
      assert forall j :: 0 <= j < |a| ==> s[j] == a[j] && s[j] != s[|a| + i];
    }
  }

  lemma NotTwice(ps: seq<Policy>, i: nat, j: nat, id: string)
    requires i < j < |ps| && Distinct(PinList(ps)) && ps[i].mode.Pin? && ps[j].mode.Pin? && id in ps[j].nodes
    ensures id !in ps[i].nodes
  {
    PinListParts(ps, j);
    var a, b :| PinList(ps) == a + ps[j].nodes + b && (forall k :: 0 <= k < j && ps[k].mode.Pin? ==> forall n :: n in ps[k].nodes ==> n in a);
    MiddleDistinct(a, ps[j].nodes, b);
  }

  /** Specs that Validate accepts are planned the same whatever the order of
      their policies; and acting on a plan that is not exposed, at any pace,
      never changes it. */
  lemma AcceptedSpecsPlanWell(spec: Spec, nodeIds: seq<string>, modelIds: seq<string>, policies: seq<Policy>,
                              history: seq<seq<Node>>, models: seq<PlanModel>, minTokS: real, k: nat)
    requires Accepts(spec, nodeIds, modelIds) && multiset(policies) == multiset(spec.policies)
    requires k < |history| && Run(spec, history, models, minTokS)
    requires UniqueIds(history[0]) && NamedModels(models)
    ensures PlanOf(spec.(policies := policies), history[0], models, minTokS).rows == PlanOf(spec, history[0], models, minTokS).rows
    ensures !Exposed(spec, history[0], models, minTokS) ==> PlanOf(spec, history[k], models, minTokS) == PlanOf(spec, history[0], models, minTokS)
  {
    AcceptedPinsOnce(spec, nodeIds, modelIds);
    hide PinnedOnce, OnePolicyPerModel, OneQuotaPerModel, Run, PlanOf, Accepts, Exposed, UniqueIds;
    assert OnePolicyPerModel(spec.policies) by { AcceptedOnce(spec, nodeIds, modelIds); }
    PolicyOrderIsIrrelevant(spec, policies, history[0], models, minTokS);
    OnePolicyOneQuota(spec.policies);
    if !Exposed(spec, history[0], models, minTokS) { PlanIsFixedPoint(spec, history, models, minTokS, k); }
  }

  /** An accepted spec never flaps on any fleet if and only if its default model
      has no quota, or one of 100%. */
  lemma AcceptedSpecsFlapExactly(spec: Spec, nodeIds: seq<string>, modelIds: seq<string>)
    requires Accepts(spec, nodeIds, modelIds) && "" !in modelIds
    ensures NeverFlaps(spec) <==> DefaultTakesAll(spec)
  {
    AcceptedOnce(spec, nodeIds, modelIds);
    forall p | p in spec.policies ensures WellFormed(p) && p.modelId != "" {
      var i :| 0 <= i < |spec.policies| && spec.policies[i] == p;
      assert PolicyOk(spec.policies[i], nodeIds, modelIds);
    }
    hide Accepts, NeverFlaps, OnePolicyPerModel;
    NeverFlapsExactly(spec);
  }

  lemma AcceptedOnce(spec: Spec, nodeIds: seq<string>, modelIds: seq<string>)
    requires Accepts(spec, nodeIds, modelIds)
    ensures OnePolicyPerModel(spec.policies)
  {
  }
}
