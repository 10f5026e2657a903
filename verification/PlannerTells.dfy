/** Shortfalls: told exactly when they happen, and never while a weaker claim
    holds a node that could have filled them. */
module PlannerTells {
  import opened Ordering
  import opened PlannerModel
  import opened Planner
  import opened PlannerFacts
  import opened PlannerSound

  // ----- warnings ---------------------------------------------------------------------

  /** A warning that a quota was not met. */
  predicate Complains(w: Warning) { w.Shortfall? || w.NoEligible? }

  lemma {:induction false} WaitingDoesNot(f: Fleet, ps: seq<Policy>)
    ensures forall w :: w in Waiting(f, ps) ==> !Complains(w)
  {
    if ps != [] { WaitingDoesNot(f, ps[..|ps| - 1]); }
  }

  lemma {:induction false} PinNodesDoNot(f: Fleet, a: Assigned, p: Policy, ids: seq<string>)
    requires ActivePin(f, p)
    ensures forall w :: w in PinNodesWarnings(f, a, p, ids) ==> !Complains(w)
  {
    hide FitsNode, MeetsSpeed;
    if ids != [] { PinNodesDoNot(f, a, p, ids[..|ids| - 1]); }
  }

  lemma {:induction false} PinsDoNot(f: Fleet, ps: seq<Policy>)
    ensures forall w :: w in PinWarnings(f, ps) ==> !Complains(w)
  {
    hide FitsNode, MeetsSpeed;
    if ps != [] {
      PinsDoNot(f, ps[..|ps| - 1]);
      var p := ps[|ps| - 1];
      if ActivePin(f, p) { PinNodesDoNot(f, Pins(f, ps[..|ps| - 1]), p, p.nodes); }
    }
  }

  lemma {:induction false} SlowDefaultsDoNot(f: Fleet, defaultModel: string, a: Assigned, ns: seq<Node>)
    ensures forall w :: w in SlowDefaults(f, defaultModel, a, ns) ==> !Complains(w)
  {
    hide FitsNode, MeetsSpeed;
    if ns != [] { SlowDefaultsDoNot(f, defaultModel, a, ns[..|ns| - 1]); }
  }

  lemma {:induction false} QuotaWarningsAre(f: Fleet, pins: Assigned, ts: seq<Policy>, k: nat)
    requires Ready(f, ts) && k <= |ts|
    ensures forall w :: w in QuotaWarnings(f, pins, ts[..k]) <==>
              exists i :: 0 <= i < k && ts[i] in ts && w in QuotaWarning(f, Quotas(f, pins, ts[..i]), ts[i])
  {
    hide QuotaWarning, Quotas;
    if k > 0 {
      QuotaWarningsAre(f, pins, ts, k - 1);
      assert ts[..k][..k - 1] == ts[..k - 1] && ts[k - 1] in ts;
    }
  }

  /** The complaints of a plan are exactly those of its turns. */
  lemma ComplaintsAre(f: Fleet, spec: Spec)
    ensures var ts := Turns(f, spec.policies);
            forall w :: Complains(w) ==>
              (w in PlanIn(f, spec).warnings <==>
               exists i :: 0 <= i < |ts| && ts[i] in ts && w in QuotaWarning(f, Quotas(f, Pins(f, spec.policies), ts[..i]), ts[i]))
  {
    hide Turns, QuotaWarning, Quotas, FitsNode, MeetsSpeed, Waiting, Pins, PinWarnings, SlowDefaults, FinalRows;
    var ts, pins := Turns(f, spec.policies), Pins(f, spec.policies);
    WaitingDoesNot(f, spec.policies);
    PinsDoNot(f, spec.policies);
    SlowDefaultsDoNot(f, spec.defaultModel, AllAssigned(f, spec.policies), f.nodes);
    QuotaWarningsAre(f, pins, ts, |ts|);
    assert ts[..|ts|] == ts;
  }

  lemma QuotaWarningIs(f: Fleet, a: Assigned, p: Policy)
    requires FleetOk(f) && p.modelId in f.byModel
    ensures forall w :: w in QuotaWarning(f, a, p) ==> Complains(w) && w.model == p.modelId
    ensures QuotaWarning(f, a, p) != [] <==> Pool(f, p) == 0 || Got(f, a, p) < Want(f, p)
    ensures QuotaWarning(f, a, p) != [] ==> QuotaWarning(f, a, p)[0] in QuotaWarning(f, a, p)
  {
    hide Pool, Want, Got, WhyNoFit;
  }

  /** Complaints about a policy's model come from its own turn. */
  lemma ComplaintsOfOneTurn(f: Fleet, spec: Spec, i: nat)
    requires FleetOk(f) && OneQuotaPerModel(spec.policies) && i < |Turns(f, spec.policies)|
    ensures var p := Turns(f, spec.policies)[i];
            p in Turns(f, spec.policies)
            && forall w :: Complains(w) && w.model == p.modelId ==>
                 (w in PlanIn(f, spec).warnings
                  <==> w in QuotaWarning(f, Quotas(f, Pins(f, spec.policies), Turns(f, spec.policies)[..i]), p))
  {
    hide Turns, Quotas, Pins, PlanIn, QuotaWarning;
    var ts, pins := Turns(f, spec.policies), Pins(f, spec.policies);
    var p := ts[i];
    assert p in ts;
    ComplaintsAre(f, spec);
    TurnsOnce(f, spec.policies);
    forall w | Complains(w) && w.model == p.modelId && w in PlanIn(f, spec).warnings
      ensures w in QuotaWarning(f, Quotas(f, pins, ts[..i]), p)
    {
      var k :| 0 <= k < |ts| && ts[k] in ts && w in QuotaWarning(f, Quotas(f, pins, ts[..k]), ts[k]);
      QuotaWarningIs(f, Quotas(f, pins, ts[..k]), ts[k]);
      assert k == i;
    }
  }

  /** A policy has a complaint about its model in the warnings exactly when no
      node was eligible or its model holds fewer nodes than it wants. */
  lemma ShortfallsAreTold(f: Fleet, spec: Spec, i: nat)
    requires FleetOk(f) && OneQuotaPerModel(spec.policies) && i < |Turns(f, spec.policies)|
    ensures var p := Turns(f, spec.policies)[i];
            p in Turns(f, spec.policies)
            && ((exists w :: w in PlanIn(f, spec).warnings && Complains(w) && w.model == p.modelId)
                <==> Pool(f, p) == 0 || |Holders(PlanIn(f, spec), p.modelId, ReasonOf(p.mode))| < Want(f, p))
  {
    hide Turns, Quotas, Pins, PlanIn, Pool, Want, QuotaWarning, FreeNodes, Holders;
    ComplaintsOfOneTurn(f, spec, i);
    QuotaMet(f, spec, i);
    var ts := Turns(f, spec.policies);
    QuotaWarningIs(f, Quotas(f, Pins(f, spec.policies), ts[..i]), ts[i]);
  }

  // ----- pins ---------------------------------------------------------------------------

  /** w says that p did not get all it asked for. */
  predicate Names(w: Warning, p: Policy)
  {
    match w
    case PolicyWaits(model, mode) => model == p.modelId && mode == p.mode
    case PinNotConnected(model, node) => PinOf(p, model, node)
    case AlreadyPinned(model, node, to) => PinOf(p, model, node) && to != model
    case PinTooBig(model, node) => PinOf(p, model, node)
    case TooSlow(model, node, _, _) => PinOf(p, model, node)
    case NoEligible(model, _) => IsQuota(p) && model == p.modelId
    case Shortfall(model, _, _) => IsQuota(p) && model == p.modelId
    case _ => false
  }

  predicate PinOf(p: Policy, model: string, node: string) { p.mode.Pin? && model == p.modelId && node in p.nodes }

  /** A warning of the pin stage that is not about a pin given twice. */
  predicate PinComplaint(w: Warning)
  {
    w.PinNotConnected? || (w.AlreadyPinned? && w.to != w.model) || w.PinTooBig? || w.TooSlow?
  }

  lemma PinNodeWarns(f: Fleet, a: Assigned, p: Policy, id: string)
    requires FleetOk(f) && ActivePin(f, p)
    ensures forall w :: w in PinNodeWarnings(f, a, p, id) ==>
              (PinComplaint(w) || w.AlreadyPinned?) && w.model == p.modelId && w.node == id
  {
    hide FitsNode, MeetsSpeed, PredictedTPS;
  }

  /** Each node of a pin is complained about as if it were the only one. */
  lemma {:induction false} PinNodesWarn(f: Fleet, a: Assigned, p: Policy, ids: seq<string>)
    requires FleetOk(f) && GoodRows(f, a) && ActivePin(f, p)
    ensures forall w :: PinComplaint(w) ==>
              (w in PinNodesWarnings(f, a, p, ids) <==> exists id :: id in ids && w in PinNodeWarnings(f, a, p, id))
  {
    hide PinNode, FitsNode, MeetsSpeed, EstRAM, CtxSize, PredictedTPS, GoodRows;
    if ids != [] {
      var init, last := ids[..|ids| - 1], ids[|ids| - 1];
      assert forall id :: id in ids <==> id in init || id == last by { assert ids == init + [last]; }
      PinNodesWarn(f, a, p, init);
      PinNodesFacts(f, a, p, init);
      var b := PinNodes(f, a, p, init);
      LaterSame(f, a, b, p, init, last);
      hide PinNodeWarnings, PinComplaint, FleetOk, PinNodes;
      assert forall w :: w in PinNodesWarnings(f, a, p, ids) <==> w in PinNodesWarnings(f, a, p, init) || w in PinNodeWarnings(f, b, p, last);
    }
  }

  lemma LaterSame(f: Fleet, a: Assigned, b: Assigned, p: Policy, init: seq<string>, id: string)
    requires FleetOk(f) && GoodRows(f, a) && GoodRows(f, b) && ActivePin(f, p)
    requires forall k :: k in b <==> k in a || (k in init && k in f.byNode)
    requires forall k :: k in b && k in a ==> b[k] == a[k]
    requires forall k :: k in b && k !in a ==> b[k].modelId == p.modelId
    ensures forall w :: PinComplaint(w) && w in PinNodeWarnings(f, b, p, id) ==> w in PinNodeWarnings(f, a, p, id)
    ensures id !in init ==> forall w :: PinComplaint(w) ==> (w in PinNodeWarnings(f, b, p, id) <==> w in PinNodeWarnings(f, a, p, id))
  {
    hide FitsNode, MeetsSpeed, PredictedTPS, Row;
    FreeMeansAbsent(f, a, id);
    FreeMeansAbsent(f, b, id);
  }

  /** The pin policy at i complains w about one of its nodes. */
  ghost predicate PolicyWarns(f: Fleet, ps: seq<Policy>, i: nat, w: Warning)
    requires i < |ps|
  {
    ActivePin(f, ps[i]) && exists id :: id in ps[i].nodes && w in PinNodeWarnings(f, Pins(f, ps[..i]), ps[i], id)
  }

  lemma PolicyWarnsIs(f: Fleet, ps: seq<Policy>, i: nat)
    requires FleetOk(f) && i < |ps|
    ensures forall w :: PinComplaint(w) ==> (w in PinPolicyWarnings(f, Pins(f, ps[..i]), ps[i]) <==> PolicyWarns(f, ps, i, w))
  {
    hide PinNodeWarnings, Pins, PinComplaint, FleetOk, PinNodesWarnings, GoodRows;
    AssignedGood(f, ps[..i]);
    if ActivePin(f, ps[i]) { PinNodesWarn(f, Pins(f, ps[..i]), ps[i], ps[i].nodes); }
  }

  lemma {:induction false} PinsWarn(f: Fleet, ps: seq<Policy>, k: nat)
    requires FleetOk(f) && k <= |ps|
    ensures forall w :: PinComplaint(w) ==> (w in PinWarnings(f, ps[..k]) <==> exists i :: 0 <= i < k && PolicyWarns(f, ps, i, w))
  {
    hide Pins, PinComplaint, FleetOk, PolicyWarns, PinPolicyWarnings;
    if k > 0 {
      PinsWarn(f, ps, k - 1);
      assert ps[..k][..k - 1] == ps[..k - 1];
      PolicyWarnsIs(f, ps, k - 1);
    }
  }

  lemma {:induction false} PinsKeep(f: Fleet, ps: seq<Policy>, i: nat, k: nat)
    requires FleetOk(f) && i <= k <= |ps|
    ensures var a, b := Pins(f, ps[..i]), Pins(f, ps[..k]);
            forall id :: id in a ==> id in b && b[id] == a[id]
    decreases k
  {
    hide Row, PinNodes;
    if i < k {
      PinsKeep(f, ps, i, k - 1);
      assert ps[..k][..k - 1] == ps[..k - 1];
      AssignedGood(f, ps[..k - 1]);
      if ActivePin(f, ps[k - 1]) { PinNodesFacts(f, Pins(f, ps[..k - 1]), ps[k - 1], ps[k - 1].nodes); }
    }
  }

  /** A node that an active pin names has the pin's row, unless an earlier
      policy took it, whose model is another. */
  lemma PinEntry(f: Fleet, ps: seq<Policy>, i: nat, id: string)
    requires FleetOk(f) && OnePolicyPerModel(ps) && i < |ps| && ActivePin(f, ps[i]) && id in ps[i].nodes && id in f.byNode
    ensures var a := Pins(f, ps[..i]);
            && id in AllAssigned(f, ps)
            && AllAssigned(f, ps)[id] == (if id in a then a[id] else Row(f.byModel[ps[i].modelId], f.byNode[id], ByPin))
            && (id in a ==> a[id].modelId != ps[i].modelId)
  {
    hide Row, AllAssigned, Pins, FleetOk, GoodRows, OnePolicyPerModel;
    var a := Pins(f, ps[..i]);
    PinAdded(f, ps, i);
    PinsKeep(f, ps, i + 1, |ps|);
    assert ps[..|ps|] == ps;
    PinsStay(f, ps);
    if id in a { PinnedEarlier(f, ps, i, id); }
  }

  lemma PinAdded(f: Fleet, ps: seq<Policy>, i: nat)
    requires FleetOk(f) && i < |ps| && ActivePin(f, ps[i])
    ensures var a, b := Pins(f, ps[..i]), Pins(f, ps[..i + 1]);
            forall id :: id in ps[i].nodes && id in f.byNode ==>
              id in b && b[id] == if id in a then a[id] else Row(f.byModel[ps[i].modelId], f.byNode[id], ByPin)
  {
    hide Row, PinNodes, GoodRows, FleetOk;
    AssignedGood(f, ps[..i]);
    assert ps[..i + 1][..i] == ps[..i];
    PinNodesFacts(f, Pins(f, ps[..i]), ps[i], ps[i].nodes);
  }

  lemma PinsStay(f: Fleet, ps: seq<Policy>)
    requires FleetOk(f)
    ensures forall id :: id in Pins(f, ps) ==> id in AllAssigned(f, ps) && AllAssigned(f, ps)[id] == Pins(f, ps)[id]
  {
    hide Turns, Pins, Quotas, FleetOk, GoodRows;
    var ts := Turns(f, ps);
    AssignedGood(f, ps);
    TurnsKeep(f, Pins(f, ps), ts, 0, |ts|);
    assert ts[..0] == [] && ts[..|ts|] == ts;
    PinsAreFirst(f, Pins(f, ps));
  }

  lemma PinnedEarlier(f: Fleet, ps: seq<Policy>, i: nat, id: string)
    requires FleetOk(f) && OnePolicyPerModel(ps) && i < |ps| && id in Pins(f, ps[..i])
    ensures Pins(f, ps[..i])[id].modelId != ps[i].modelId
  {
    hide Pins, GoodRows, FitsNode, EstRAM, CtxSize, PredictedTPS;
    PinsFacts(f, ps[..i]);
    var q :| q in ps[..i] && PinnedBy(f, q, id) && Pins(f, ps[..i])[id] == Row(f.byModel[q.modelId], f.byNode[id], ByPin);
    var j :| 0 <= j < i && ps[..i][j] == q;
    assert ps[j] == q;
  }

  /** p's pin of id is honoured: connected, with p's own row, and the model fits
      and is fast enough. */
  ghost predicate PinMet(f: Fleet, spec: Spec, p: Policy, id: string)
    requires p.modelId in f.byModel
  {
    && id in f.byNode
    && FinalRow(f, spec.defaultModel, AllAssigned(f, spec.policies), f.byNode[id]) == Row(f.byModel[p.modelId], f.byNode[id], ByPin)
    && FitsNode(f.byModel[p.modelId], f.byNode[id])
    && MeetsSpeed(f.byModel[p.modelId], f.byNode[id], EffectiveMinTokS(p, f.minTokS))
  }

  lemma PinToldAtOnce(f: Fleet, spec: Spec, i: nat, id: string)
    requires FleetOk(f) && OnePolicyPerModel(spec.policies) && i < |spec.policies|
    requires ActivePin(f, spec.policies[i]) && id in spec.policies[i].nodes
    ensures var p, a := spec.policies[i], Pins(f, spec.policies[..i]);
            PinMet(f, spec, p, id) <==> !exists w :: w in PinNodeWarnings(f, a, p, id) && PinComplaint(w)
  {
    hide FitsNode, MeetsSpeed, AllAssigned, Pins, EstRAM, PredictedTPS, OnePolicyPerModel, EffectiveMinTokS, GoodRows;
    var ps := spec.policies;
    var p, a := ps[i], Pins(f, ps[..i]);
    AssignedGood(f, ps[..i]);
    FreeMeansAbsent(f, a, id);
    var ws := PinNodeWarnings(f, a, p, id);
    if id in f.byNode { PinEntry(f, ps, i, id); }
    FirstIsMember(ws);
    PinNodeWarns(f, a, p, id);
    assert ws != [] ==> PinComplaint(ws[0]);
    assert ws == [] <==> PinMet(f, spec, p, id);
  }

  lemma {:induction false} SlowDefaultsAre(f: Fleet, defaultModel: string, a: Assigned, ns: seq<Node>)
    ensures forall w :: w in SlowDefaults(f, defaultModel, a, ns) <==> exists n :: n in ns && w in SlowDefault(f, defaultModel, a, n)
  {
    hide SlowDefault;
    if ns != [] {
      var init, last := ns[..|ns| - 1], ns[|ns| - 1];
      SlowDefaultsAre(f, defaultModel, a, init);
      assert forall n :: n in ns <==> n in init || n == last by { assert ns == init + [last]; }
    }
  }

  /** The stages of a plan that may have made a warning. */
  lemma WhichStage(f: Fleet, spec: Spec, w: Warning)
    ensures var ps, d := spec.policies, spec.defaultModel;
            w in PlanIn(f, spec).warnings <==>
              || w in Waiting(f, ps) || w in DefaultWaiting(f, d) || w in PinWarnings(f, ps)
              || w in QuotaWarnings(f, Pins(f, ps), Turns(f, ps)) || w in SlowDefaults(f, d, AllAssigned(f, ps), f.nodes)
              || w in TooBigDefault(f, d, TooSmall(f, d, AllAssigned(f, ps), f.nodes))
  {
    hide Turns, Pins, Quotas, Waiting, DefaultWaiting, PinWarnings, QuotaWarnings, SlowDefaults, TooBigDefault, TooSmall, FinalRows;
  }

  lemma TurnsComplain(f: Fleet, ps: seq<Policy>)
    requires FleetOk(f)
    ensures forall w :: w in QuotaWarnings(f, Pins(f, ps), Turns(f, ps)) ==> Complains(w)
  {
    hide Turns, Pins, QuotaWarnings;
    var ts := Turns(f, ps);
    QuotaWarningsComplain(f, Pins(f, ps), ts, |ts|);
    assert ts[..|ts|] == ts;
  }

  /** Warnings that neither the pins nor the turns make. */
  lemma OtherWarnings(f: Fleet, spec: Spec, w: Warning)
    requires FleetOk(f) && PinComplaint(w) && w in PlanIn(f, spec).warnings && w !in PinWarnings(f, spec.policies)
    ensures w.TooSlow? && w.node in f.byNode && w.node !in AllAssigned(f, spec.policies)
  {
    hide Turns, QuotaWarnings, Quotas, FitsNode, MeetsSpeed, Pins, PinWarnings, PlanIn, PredictedTPS, SlowDefaults, TooSmall, Waiting, AllAssigned;
    WhichStage(f, spec, w);
    WaitingOnlyWaits(f, spec.policies);
    SlowDefaultsAre(f, spec.defaultModel, AllAssigned(f, spec.policies), f.nodes);
    TurnsComplain(f, spec.policies);
  }

  lemma {:induction false} WaitingOnlyWaits(f: Fleet, ps: seq<Policy>)
    ensures forall w :: w in Waiting(f, ps) <==> exists p :: p in ps && p.modelId !in f.byModel && w == PolicyWaits(p.modelId, p.mode)
  {
    if ps != [] {
      var init, last := ps[..|ps| - 1], ps[|ps| - 1];
      WaitingOnlyWaits(f, init);
      assert forall p :: p in ps <==> p in init || p == last by { assert ps == init + [last]; }
    }
  }

  lemma {:induction false} QuotaWarningsComplain(f: Fleet, pins: Assigned, ts: seq<Policy>, k: nat)
    requires FleetOk(f) && Ready(f, ts) && k <= |ts|
    ensures forall w :: w in QuotaWarnings(f, pins, ts[..k]) ==> Complains(w)
  {
    hide QuotaWarning, Quotas;
    if k > 0 {
      QuotaWarningsComplain(f, pins, ts, k - 1);
      assert ts[..k][..k - 1] == ts[..k - 1] && ts[k - 1] in ts;
      QuotaWarningIs(f, Quotas(f, pins, ts[..k - 1]), ts[k - 1]);
    }
  }

  /** An active pin policy gets all its pins if and only if no warning names it. */
  lemma PinsAreTold(f: Fleet, spec: Spec, i: nat)
    requires FleetOk(f) && OnePolicyPerModel(spec.policies) && i < |spec.policies| && ActivePin(f, spec.policies[i])
    ensures var p := spec.policies[i];
            (forall id :: id in p.nodes ==> PinMet(f, spec, p, id))
            <==> !exists w :: w in PlanIn(f, spec).warnings && PinComplaint(w) && Names(w, p)
  {
    hide PlanIn, PinNodeWarnings, PinMet, AllAssigned, Pins, FleetOk;
    var ps := spec.policies;
    var p := ps[i];
    PinsWarn(f, ps, |ps|);
    assert ps[..|ps|] == ps;
    forall id | id in p.nodes && !PinMet(f, spec, p, id) ensures exists w :: w in PlanIn(f, spec).warnings && PinComplaint(w) && Names(w, p) {
      PinToldAtOnce(f, spec, i, id);
      var w :| w in PinNodeWarnings(f, Pins(f, ps[..i]), p, id) && PinComplaint(w);
      PinNodeWarns(f, Pins(f, ps[..i]), p, id);
      assert PolicyWarns(f, ps, i, w);
      WhichStage(f, spec, w);
    }
    forall w | w in PlanIn(f, spec).warnings && PinComplaint(w) && Names(w, p) ensures exists id :: id in p.nodes && !PinMet(f, spec, p, id) {
      NamedByPins(f, spec, i, w);
      PinToldAtOnce(f, spec, i, w.node);
    }
  }

  /** A pin complaint naming p comes from p's own pins. */
  lemma NamedByPins(f: Fleet, spec: Spec, i: nat, w: Warning)
    requires FleetOk(f) && OnePolicyPerModel(spec.policies) && i < |spec.policies| && ActivePin(f, spec.policies[i])
    requires w in PlanIn(f, spec).warnings && PinComplaint(w) && Names(w, spec.policies[i])
    ensures w.node in spec.policies[i].nodes && w in PinNodeWarnings(f, Pins(f, spec.policies[..i]), spec.policies[i], w.node)
  {
    hide PlanIn, PinNodeWarnings, AllAssigned, Pins, FleetOk;
    var ps := spec.policies;
    if w !in PinWarnings(f, ps) {
      OtherWarnings(f, spec, w);
      PinEntry(f, ps, i, w.node);
      assert false;
    }
    PinsWarn(f, ps, |ps|);
    assert ps[..|ps|] == ps;
    var k :| 0 <= k < |ps| && PolicyWarns(f, ps, k, w);
    var id :| id in ps[k].nodes && w in PinNodeWarnings(f, Pins(f, ps[..k]), ps[k], id);
    PinNodeWarns(f, Pins(f, ps[..k]), ps[k], id);
    assert k == i;
  }

  // ----- every policy is told -----------------------------------------------------------------

  /** p gets everything it asks for. */
  ghost predicate Satisfied(f: Fleet, spec: Spec, p: Policy)
  {
    && p.modelId in f.byModel
    && (p.mode.Pin? ==> forall id :: id in p.nodes ==> PinMet(f, spec, p, id))
    && (IsQuota(p) ==> Pool(f, p) > 0 && |Holders(PlanIn(f, spec), p.modelId, ReasonOf(p.mode))| >= Want(f, p))
  }

  lemma WaitsAreTold(f: Fleet, spec: Spec, p: Policy)
    requires FleetOk(f) && p in spec.policies
    ensures p.modelId !in f.byModel <==> exists w :: w in PlanIn(f, spec).warnings && w.PolicyWaits? && Names(w, p)
  {
    hide Turns, QuotaWarnings, Quotas, FitsNode, MeetsSpeed, Pins, PinWarnings, PlanIn, PredictedTPS, FleetOk, SlowDefaults, TooSmall, Waiting, AllAssigned;
    WaitingOnlyWaits(f, spec.policies);
    SlowDefaultsAre(f, spec.defaultModel, AllAssigned(f, spec.policies), f.nodes);
    PinsOnlyPin(f, spec.policies);
    TurnsComplain(f, spec.policies);
    var waits := PolicyWaits(p.modelId, p.mode);
    WhichStage(f, spec, waits);
    assert forall w: Warning :: w.PolicyWaits? && Names(w, p) <==> w == waits;
  }

  lemma {:induction false} PinsOnlyPin(f: Fleet, ps: seq<Policy>)
    requires FleetOk(f)
    ensures forall w :: w in PinWarnings(f, ps) ==> PinComplaint(w) || w.AlreadyPinned?
  {
    if ps != [] {
      var init, p := ps[..|ps| - 1], ps[|ps| - 1];
      PinsOnlyPin(f, init);
      if ActivePin(f, p) { PinNodesOnlyPin(f, Pins(f, init), p, p.nodes); }
    }
  }

  lemma {:induction false} PinNodesOnlyPin(f: Fleet, a: Assigned, p: Policy, ids: seq<string>)
    requires FleetOk(f) && ActivePin(f, p)
    ensures forall w :: w in PinNodesWarnings(f, a, p, ids) ==> PinComplaint(w) || w.AlreadyPinned?
  {
    hide PinNodeWarnings, FleetOk;
    if ids != [] {
      PinNodesOnlyPin(f, a, p, ids[..|ids| - 1]);
      PinNodeWarns(f, PinNodes(f, a, p, ids[..|ids| - 1]), p, ids[|ids| - 1]);
    }
  }

  lemma QuotaNames(p: Policy)
    requires IsQuota(p)
    ensures forall w :: Complains(w) && Names(w, p) <==> Complains(w) && w.model == p.modelId
  {
  }

  /** A quota of a ready model is met if and only if no warning names it. */
  lemma QuotasAreTold(f: Fleet, spec: Spec, p: Policy)
    requires FleetOk(f) && OneQuotaPerModel(spec.policies) && p in spec.policies && IsQuota(p) && p.modelId in f.byModel
    ensures Pool(f, p) > 0 && |Holders(PlanIn(f, spec), p.modelId, ReasonOf(p.mode))| >= Want(f, p)
            <==> !exists w :: w in PlanIn(f, spec).warnings && Complains(w) && Names(w, p)
  {
    hide PlanIn, Pool, Want, Holders, FleetOk, OneQuotaPerModel, Turns, Names, ReasonOf;
    var ts := Turns(f, spec.policies);
    assert p in ts;
    var k :| 0 <= k < |ts| && ts[k] == p;
    ShortfallsAreTold(f, spec, k);
    QuotaNames(p);
  }

  /** Nothing is missed silently, and no warning is empty: every policy, pin or
      quota, of a ready model or not, gets all it asks for if and only if no
      warning names it. */
  lemma EveryPolicyIsTold(f: Fleet, spec: Spec, i: nat)
    requires FleetOk(f) && OnePolicyPerModel(spec.policies) && i < |spec.policies| && !spec.policies[i].mode.UnknownMode?
    ensures Satisfied(f, spec, spec.policies[i]) <==> !exists w :: w in PlanIn(f, spec).warnings && Names(w, spec.policies[i])
  {
    hide PlanIn, PinMet, Pool, Want, Holders, FleetOk, OnePolicyPerModel, OneQuotaPerModel;
    var p := spec.policies[i];
    WaitsAreTold(f, spec, p);
    OnePolicyOneQuota(spec.policies);
    assert forall w :: Names(w, p) ==> w.PolicyWaits? || (if p.mode.Pin? then PinComplaint(w) else Complains(w));
    if p.modelId in f.byModel {
      if p.mode.Pin? { PinsAreTold(f, spec, i); } else { QuotasAreTold(f, spec, p); }
    }
    hide Names, PinComplaint, Complains;
  }

  // ----- the default model ----------------------------------------------------------------------

  predicate DefaultNames(w: Warning, model: string, id: string)
  {
    || w == DefaultWaits(model)
    || (w.DefaultTooBig? && w.model == model && id in w.nodes)
    || (w.TooSlow? && w.model == model && w.node == id)
  }

  lemma {:induction false} TooSmallAre(f: Fleet, defaultModel: string, a: Assigned, ns: seq<Node>)
    ensures forall id :: id in TooSmall(f, defaultModel, a, ns) <==> exists n :: n in ns && n.id == id && DefaultDoesNotFit(f, defaultModel, a, n)
  {
    hide DefaultDoesNotFit;
    if ns != [] {
      var init, last := ns[..|ns| - 1], ns[|ns| - 1];
      TooSmallAre(f, defaultModel, a, init);
      assert forall n :: n in ns <==> n in init || n == last by { assert ns == init + [last]; }
    }
  }

  lemma SmallIsTold(f: Fleet, d: string, a: Assigned, n: Node)
    requires FleetOk(f) && n in f.nodes
    ensures n.id in TooSmall(f, d, a, f.nodes) <==> DefaultDoesNotFit(f, d, a, n)
  {
    hide DefaultDoesNotFit, TooSmall;
    TooSmallAre(f, d, a, f.nodes);
    assert forall m :: m in f.nodes && m.id == n.id ==> m == n;
  }

  lemma SlowIsTold(f: Fleet, d: string, a: Assigned, n: Node)
    requires FleetOk(f) && n in f.nodes
    ensures (exists w :: w in SlowDefaults(f, d, a, f.nodes) && DefaultNames(w, d, n.id)) <==> DefaultTooSlow(f, d, a, n)
  {
    hide SlowDefaults, PredictedTPS, FitsNode, MeetsSpeed;
    SlowDefaultsAre(f, d, a, f.nodes);
    assert forall m :: m in f.nodes && m.id == n.id ==> m == n;
    var ws := SlowDefault(f, d, a, n);
    FirstIsMember(ws);
    assert ws != [] ==> DefaultTooSlow(f, d, a, n) && d in f.byModel && DefaultNames(ws[0], d, n.id);
  }

  /** A warning about the default model and a node without pin or quota. */
  lemma DefaultWarnings(f: Fleet, spec: Spec, n: Node)
    requires FleetOk(f) && n in f.nodes && spec.defaultModel != "" && n.id !in AllAssigned(f, spec.policies)
    ensures (exists w :: w in PlanIn(f, spec).warnings && DefaultNames(w, spec.defaultModel, n.id)) <==>
              || spec.defaultModel !in f.byModel
              || DefaultDoesNotFit(f, spec.defaultModel, AllAssigned(f, spec.policies), n)
              || DefaultTooSlow(f, spec.defaultModel, AllAssigned(f, spec.policies), n)
  {
    var d, a := spec.defaultModel, AllAssigned(f, spec.policies);
    assert DefaultDoesNotFit(f, d, a, n) ==> d in f.byModel;
    hide AllAssigned, TooSmall, SlowDefaults, PlanIn, FleetOk, DefaultDoesNotFit, DefaultTooSlow;
    SmallIsTold(f, d, a, n);
    SlowIsTold(f, d, a, n);
    WhichDefault(f, spec, n);
    var waits, big := DefaultWaits(d), DefaultTooBig(d, TooSmall(f, d, a, f.nodes));
    assert DefaultNames(waits, d, n.id) && (n.id in big.nodes ==> DefaultNames(big, d, n.id));
  }

  /** Which warnings name n as a node of the default. */
  lemma WhichDefault(f: Fleet, spec: Spec, n: Node)
    requires FleetOk(f) && n in f.nodes && spec.defaultModel != "" && n.id !in AllAssigned(f, spec.policies)
    ensures var d, a := spec.defaultModel, AllAssigned(f, spec.policies);
            forall w :: DefaultNames(w, d, n.id) ==>
              (w in PlanIn(f, spec).warnings <==>
                 || (w == DefaultWaits(d) && d !in f.byModel)
                 || w in SlowDefaults(f, d, a, f.nodes)
                 || (d in f.byModel && w == DefaultTooBig(d, TooSmall(f, d, a, f.nodes))))
  {
    hide Turns, QuotaWarnings, Quotas, Pins, PinWarnings, PlanIn, Waiting, SlowDefaults, TooSmall, AllAssigned;
    WaitingOnlyWaits(f, spec.policies);
    TurnsComplain(f, spec.policies);
    PinsNameOthers(f, spec, n);
    PinsOnlyPin(f, spec.policies);
    SlowDefaultsAre(f, spec.defaultModel, AllAssigned(f, spec.policies), f.nodes);
    var d, a := spec.defaultModel, AllAssigned(f, spec.policies);
    forall w | DefaultNames(w, d, n.id)
      ensures w in PlanIn(f, spec).warnings <==>
                 || (w == DefaultWaits(d) && d !in f.byModel)
                 || w in SlowDefaults(f, d, a, f.nodes)
                 || (d in f.byModel && w == DefaultTooBig(d, TooSmall(f, d, a, f.nodes)))
    {
      WhichStage(f, spec, w);
    }
  }

  lemma PinsNameOthers(f: Fleet, spec: Spec, n: Node)
    requires FleetOk(f) && n in f.nodes && n.id !in AllAssigned(f, spec.policies)
    ensures forall w :: w in PinWarnings(f, spec.policies) && w.TooSlow? ==> w.node != n.id
  {
    hide Pins, AllAssigned, PinNodeWarnings;
    var ps := spec.policies;
    PinsWarn(f, ps, |ps|);
    assert ps[..|ps|] == ps;
    PinsFacts(f, ps);
    PinsStay(f, ps);
    forall w | w in PinWarnings(f, ps) && w.TooSlow? ensures w.node != n.id {
      var k :| 0 <= k < |ps| && PolicyWarns(f, ps, k, w);
      var id :| id in ps[k].nodes && w in PinNodeWarnings(f, Pins(f, ps[..k]), ps[k], id);
      PinNodeWarns(f, Pins(f, ps[..k]), ps[k], id);
      assert PinnedBy(f, ps[k], id) <==> id in f.byNode;
    }
  }

  /** The default model is refused to a node in use only with a warning: a node
      that is not drained and has neither pin nor quota gets it if and only if
      no warning about the default names the node. */
  lemma DefaultIsTold(f: Fleet, spec: Spec, n: Node)
    requires FleetOk(f) && n in f.nodes && !n.drained && spec.defaultModel != ""
    ensures var row := FinalRow(f, spec.defaultModel, AllAssigned(f, spec.policies), n);
            row.reason in {ByPin, ByReplicas, ByPercent}
            || (row.reason == ByDefault <==> !exists w :: w in PlanIn(f, spec).warnings && DefaultNames(w, spec.defaultModel, n.id))
  {
    hide PlanIn, FitsNode, MeetsSpeed, AllAssigned, EstRAM, PredictedTPS;
    if n.id in AllAssigned(f, spec.policies) {
      AssignedRowEarned(f, spec, n);
      AssignedReason(f, spec.policies, n.id);
    } else {
      DefaultWarnings(f, spec, n);
    }
  }

  lemma AssignedReason(f: Fleet, ps: seq<Policy>, id: string)
    requires FleetOk(f) && id in AllAssigned(f, ps)
    ensures AllAssigned(f, ps)[id].reason in {ByPin, ByReplicas, ByPercent}
  {
    hide AllAssigned, Pins, Turns, Eligible;
    AssignedFrom(f, ps, id);
  }

  // ----- priorities ----------------------------------------------------------------------

  lemma FromTurn(f: Fleet, ts: seq<Policy>, i: nat, row: Assignment, id: string)
    requires Ready(f, ts) && i < |ts| && id in f.byNode && From(f, ts[..i + 1], row, id)
    ensures exists k :: 0 <= k <= i && row.modelId == ts[k].modelId && row.reason == ReasonOf(ts[k].mode)
  {
    hide Eligible;
    var q :| q in ts[..i + 1] && row.modelId == q.modelId && row.reason == ReasonOf(q.mode) && Eligible(f, q, f.byNode[id]);
    var k :| 0 <= k < i + 1 && ts[..i + 1][k] == q;
    assert ts[k] == q;
  }

  /** A node with an entry after turn i keeps it, and got it from a pin or one
      of the turns up to i. */
  lemma HeldByTurn(f: Fleet, spec: Spec, i: nat, n: Node)
    requires FleetOk(f) && i < |Turns(f, spec.policies)| && n in f.nodes
    requires n.id in Quotas(f, Pins(f, spec.policies), Turns(f, spec.policies)[..i + 1])
    ensures var row := FinalRow(f, spec.defaultModel, AllAssigned(f, spec.policies), n);
            row.reason == ByPin
            || exists k :: 0 <= k <= i && row.modelId == Turns(f, spec.policies)[k].modelId && row.reason == ReasonOf(Turns(f, spec.policies)[k].mode)
  {
    hide Turns, Pins, Quotas, FleetOk, GoodRows, From;
    var ts, pins := Turns(f, spec.policies), Pins(f, spec.policies);
    AssignedGood(f, spec.policies);
    PinsAreFirst(f, pins);
    assert ts[..0] == [] && ts[..|ts|] == ts && ts[0..i + 1] == ts[..i + 1];
    TurnsKeep(f, pins, ts, i + 1, |ts|);
    TurnsGive(f, pins, ts, 0, i + 1);
    var row := AllAssigned(f, spec.policies)[n.id];
    assert row == Quotas(f, pins, ts[..i + 1])[n.id];
    assert FinalRow(f, spec.defaultModel, AllAssigned(f, spec.policies), n) == row;
    hide FinalRow, ReasonOf;
    if n.id in pins {
      AssignedFrom(f, spec.policies, n.id);
    } else {
      FromTurn(f, ts, i, row, n.id);
    }
  }

  /** When a policy falls short, every node it could have used is pinned or
      held by the policy itself or one that picked before it: never by a later
      policy, the default model or the node's old model. */
  lemma NeverOvertaken(f: Fleet, spec: Spec, i: nat, n: Node)
    requires FleetOk(f) && OneQuotaPerModel(spec.policies) && i < |Turns(f, spec.policies)|
    requires var p := Turns(f, spec.policies)[i];
             p in Turns(f, spec.policies) && n in f.nodes && Eligible(f, p, n)
             && |Holders(PlanIn(f, spec), p.modelId, ReasonOf(p.mode))| < Want(f, p)
    ensures var row := FinalRow(f, spec.defaultModel, AllAssigned(f, spec.policies), n);
            row.reason == ByPin
            || exists k :: 0 <= k <= i && row.modelId == Turns(f, spec.policies)[k].modelId && row.reason == ReasonOf(Turns(f, spec.policies)[k].mode)
  {
    hide Turns, Eligible, Pins, Quotas, PlanIn, Want, Quota, Chosen, FinalRow, AllAssigned, FreeNodes;
    var ts, pins := Turns(f, spec.policies), Pins(f, spec.policies);
    var p, a := ts[i], Quotas(f, pins, ts[..i]);
    QuotaMet(f, spec, i);
    AssignedGood(f, spec.policies);
    QuotasGood(f, pins, ts, i);
    QuotasStep(f, pins, ts, i);
    QuotaFacts(f, a, p);
    AllFreeTaken(f, a, p, n);
    HeldByTurn(f, spec, i, n);
  }

  /** Replicas beat percentages, and within a mode bigger models choose first:
      when a policy falls short, every node it could have used is pinned, or has
      a replicas row, or for a percent policy a percent row; and one of its own
      mode serves a model that needs at least as much memory, of equals one that
      comes first by id. */
  lemma StrongerPoliciesFirst(f: Fleet, spec: Spec, p: Policy, n: Node, row: Assignment)
    requires FleetOk(f) && OneQuotaPerModel(spec.policies) && p in spec.policies && p.modelId in f.byModel
    requires p.mode.Replicas? || p.mode.Percent?
    requires |Holders(PlanIn(f, spec), p.modelId, if p.mode.Replicas? then ByReplicas else ByPercent)|
             < if p.mode.Replicas? then p.replicas else PercentOf(p.percent, Pool(f, p))
    requires n in f.nodes && Eligible(f, p, n) && row in PlanIn(f, spec).rows && row.nodeId == n.id
    ensures row.reason == ByPin || row.reason == ByReplicas || (row.reason == ByPercent && p.mode.Percent?)
    ensures row.reason == (if p.mode.Replicas? then ByReplicas else ByPercent) ==>
              && row.modelId in f.byModel
              && var size, least := EstRAM(f.byModel[row.modelId]), EstRAM(f.byModel[p.modelId]);
                 size > least || (size == least && Compare(row.modelId, p.modelId) <= 0)
  {
    var ts := Turns(f, spec.policies);
    assert p in ts;
    RowOf(f, spec, n);
    assert Want(f, p) == if p.mode.Replicas? then p.replicas else PercentOf(p.percent, Pool(f, p));
    hide Turns, Eligible, PlanIn, Holders, FleetOk, OneQuotaPerModel, EstRAM, AllAssigned, FinalRow, Want, PercentOf, Pool, Compare;
    var i :| 0 <= i < |ts| && ts[i] == p;
    NeverOvertaken(f, spec, i, n);
    if row.reason != ByPin {
      var k :| 0 <= k <= i && row.modelId == ts[k].modelId && row.reason == ReasonOf(ts[k].mode);
      TurnsInOrder(f, spec.policies, k, i);
    }
  }

  /** x is served or was given m in preference to y: it serves m already, or was
      given it last time, or is faster, has more memory, or comes first by id. */
  ghost predicate Preferable(m: string, x: Node, y: Node)
  {
    if (x.currentModel == m) != (y.currentModel == m) then x.currentModel == m
    else if x.currentModel != m && (x.assignedModel == m) != (y.assignedModel == m) then x.assignedModel == m
    else if x.speed != y.speed then x.speed > y.speed
    else if x.ramTotalBytes != y.ramTotalBytes then x.ramTotalBytes > y.ramTotalBytes
    else Compare(x.id, y.id) <= 0
  }

  /** A policy's nodes are preferable to every eligible node that got nothing or
      the default. */
  lemma HeldArePreferable(f: Fleet, spec: Spec, p: Policy, x: Node, y: Node, row: Assignment)
    requires FleetOk(f) && OneQuotaPerModel(spec.policies) && p in spec.policies && p.modelId in f.byModel
    requires p.mode.Replicas? || p.mode.Percent?
    requires x in f.nodes && x.id in Holders(PlanIn(f, spec), p.modelId, if p.mode.Replicas? then ByReplicas else ByPercent)
    requires y in f.nodes && Eligible(f, p, y) && row in PlanIn(f, spec).rows && row.nodeId == y.id && row.reason in {ByDefault, Keep, NoModel}
    ensures Preferable(p.modelId, x, y)
  {
    hide Turns, Pins, Quotas, Eligible, PlanIn, Holders, FleetOk, OneQuotaPerModel, FreeNodes, PreferFor, Preferable, Want, Ids, UniqueIds;
    var i := TurnOf(f, spec.policies, p);
    LeftIsFree(f, spec, i, y, row);
    QuotaMet(f, spec, i);
    var free := FreeNodes(f, Quotas(f, Pins(f, spec.policies), Turns(f, spec.policies)[..i]), p);
    HeldIsFree(f, free, x, Holders(PlanIn(f, spec), p.modelId, ReasonOf(p.mode)));
    NotHeldByRow(f, spec, p, y, row);
    PreferredMeans(p.modelId, x, y);
  }

  lemma TurnOf(f: Fleet, ps: seq<Policy>, p: Policy) returns (i: nat)
    requires p in ps && p.modelId in f.byModel && (p.mode.Replicas? || p.mode.Percent?)
    ensures i < |Turns(f, ps)| && Turns(f, ps)[i] == p && p in Turns(f, ps)
    ensures ReasonOf(p.mode) == if p.mode.Replicas? then ByReplicas else ByPercent
  {
    assert p in Turns(f, ps);
    hide Turns;
    i :| 0 <= i < |Turns(f, ps)| && Turns(f, ps)[i] == p;
  }

  /** What is held is one of the free nodes. */
  lemma HeldIsFree(f: Fleet, free: seq<Node>, x: Node, held: set<string>)
    requires FleetOk(f) && held <= Ids(free) && x in f.nodes && x.id in held && forall n :: n in free ==> n in f.nodes
    ensures x in free
  {
    assert x.id in Ids(free);
    var n :| n in free && n.id == x.id;
  }

  /** A node that got nothing, or the default, was free at every turn. */
  lemma LeftIsFree(f: Fleet, spec: Spec, i: nat, y: Node, row: Assignment)
    requires FleetOk(f) && i < |Turns(f, spec.policies)| && Turns(f, spec.policies)[i] in Turns(f, spec.policies)
    requires y in f.nodes && Eligible(f, Turns(f, spec.policies)[i], y)
    requires row in PlanIn(f, spec).rows && row.nodeId == y.id && row.reason in {ByDefault, Keep, NoModel}
    ensures var free := FreeNodes(f, Quotas(f, Pins(f, spec.policies), Turns(f, spec.policies)[..i]), Turns(f, spec.policies)[i]);
            y in free && forall n :: n in free ==> n in f.nodes
  {
    hide Turns, Pins, Quotas, Eligible, PlanIn, FleetOk, GoodRows, KeepRow, Row;
    var ts, pins := Turns(f, spec.policies), Pins(f, spec.policies);
    RowOf(f, spec, y);
    if y.id in AllAssigned(f, spec.policies) { AssignedReason(f, spec.policies, y.id); }
    assert y.id !in AllAssigned(f, spec.policies);
    AssignedGood(f, spec.policies);
    TurnsKeep(f, pins, ts, i, |ts|);
    assert ts[..|ts|] == ts;
  }

  lemma NotHeldByRow(f: Fleet, spec: Spec, p: Policy, y: Node, row: Assignment)
    requires FleetOk(f) && y in f.nodes && row in PlanIn(f, spec).rows && row.nodeId == y.id && row.reason in {ByDefault, Keep, NoModel}
    ensures y.id !in Holders(PlanIn(f, spec), p.modelId, ReasonOf(p.mode))
  {
    hide PlanIn, FinalRow, AllAssigned;
    RowOf(f, spec, y);
  }

  lemma PreferredMeans(m: string, x: Node, y: Node)
    ensures PreferFor(m, x, y) <= 0 ==> Preferable(m, x, y)
  {
  }

  /** A policy that wants more than there is takes every free eligible node. */
  lemma AllFreeTaken(f: Fleet, a: Assigned, p: Policy, n: Node)
    requires FleetOk(f) && GoodRows(f, a) && p.modelId in f.byModel
    requires n in f.nodes && Eligible(f, p, n) && Got(f, a, p) < Want(f, p)
    ensures n.id in a || Takes(f, a, p, n.id)
  {
    hide FitsNode, MeetsSpeed, PreferFor;
    var free := FreeNodes(f, a, p);
    var s := Sort(Preferred(p.modelId), free);
    assert s[..|s|] == s;
    SameElements(s, free);
    FreeMeansAbsent(f, a, n.id);
  }
}
