/** What each stage of a plan keeps: facts about the folds of Planner. */
module PlannerFacts {
  import opened Ordering
  import opened PlannerModel
  import opened Planner

  // ----- fleets ----------------------------------------------------------------

  ghost predicate FleetOk(f: Fleet)
  {
    && UniqueIds(f.nodes)
    && (forall n :: n in f.nodes ==> n.id in f.byNode && f.byNode[n.id] == n)
    && (forall id :: id in f.byNode ==> f.byNode[id] in f.nodes && f.byNode[id].id == id)
    && (forall id :: id in f.byModel ==> f.byModel[id].id == id)
    && "" !in f.byModel
  }

  ghost predicate NamedModels(models: seq<PlanModel>)
  {
    forall m :: m in models ==> m.id != ""
  }

  lemma FleetOfOk(nodes: seq<Node>, models: seq<PlanModel>, minTokS: real)
    requires UniqueIds(nodes) && NamedModels(models)
    ensures var f := FleetOf(nodes, models, minTokS);
            FleetOk(f) && multiset(f.nodes) == multiset(nodes) && Sorted(ById(), f.nodes)
            && forall n :: n in f.nodes <==> n in nodes
  {
    var sorted := Sort(ById(), nodes);
    ByIdIsTotal();
    SortSorts(ById(), nodes);
    UniqueIdsPermute(nodes, sorted);
    SameElements(sorted, nodes);
    NodeTableHolds(sorted);
    ModelTableHolds(models);
  }

  // ----- rows --------------------------------------------------------------------

  /** Every entry is a connected node's row for a ready model. */
  ghost predicate GoodRows(f: Fleet, a: Assigned)
  {
    forall id :: id in a ==>
      && id in f.byNode && a[id].modelId in f.byModel
      && a[id] == Row(f.byModel[a[id].modelId], f.byNode[id], a[id].reason)
  }

  /** On good rows the test ModelID == "" is the test "not assigned". */
  lemma FreeMeansAbsent(f: Fleet, a: Assigned, id: string)
    requires FleetOk(f) && GoodRows(f, a)
    ensures Free(a, id) <==> id !in a
  {
  }

  // ----- pins ---------------------------------------------------------------------

  ghost predicate PinnedBy(f: Fleet, p: Policy, id: string)
  {
    ActivePin(f, p) && id in p.nodes && id in f.byNode
  }

  /** One pin fills a free connected node and touches nothing else. */
  lemma PinNodeFacts(f: Fleet, a: Assigned, p: Policy, id: string)
    requires FleetOk(f) && GoodRows(f, a) && ActivePin(f, p)
    ensures var b := PinNode(f, a, p, id);
            && GoodRows(f, b)
            && b == if id in f.byNode && id !in a then a[id := Row(f.byModel[p.modelId], f.byNode[id], ByPin)] else a
  {
    hide FitsNode, EstRAM, PredictedTPS;
  }

  lemma {:induction false} PinNodesFacts(f: Fleet, a: Assigned, p: Policy, ids: seq<string>)
    requires FleetOk(f) && GoodRows(f, a) && ActivePin(f, p)
    ensures var b := PinNodes(f, a, p, ids);
            && GoodRows(f, b)
            && (forall id :: id in b <==> id in a || (id in ids && id in f.byNode))
            && (forall id :: id in b && id in a ==> b[id] == a[id])
            && (forall id :: id in b && id !in a ==> b[id] == Row(f.byModel[p.modelId], f.byNode[id], ByPin))
  {
    hide Row, PinNode;
    if ids != [] {
      var init, last := ids[..|ids| - 1], ids[|ids| - 1];
      assert forall id :: id in ids <==> id in init || id == last by { assert ids == init + [last]; }
      PinNodesFacts(f, a, p, init);
      PinNodeFacts(f, PinNodes(f, a, p, init), p, last);
    }
  }

  /** Pins are first come, first served, and every pin of a ready model to a
      connected node is honoured by some policy that names the node. */
  lemma {:induction false} PinsFacts(f: Fleet, ps: seq<Policy>)
    requires FleetOk(f)
    ensures var a := Pins(f, ps);
            && GoodRows(f, a)
            && (forall id :: id in a <==> exists p :: p in ps && PinnedBy(f, p, id))
            && (forall id :: id in a ==> exists p :: p in ps && PinnedBy(f, p, id)
                                           && a[id] == Row(f.byModel[p.modelId], f.byNode[id], ByPin))
  {
    if ps != [] {
      var init, p := ps[..|ps| - 1], ps[|ps| - 1];
      assert ps == init + [p];
      PinsFacts(f, init);
      var a, b := Pins(f, init), Pins(f, ps);
      if ActivePin(f, p) {
        PinNodesFacts(f, a, p, p.nodes);
        forall id ensures id in b <==> exists q :: q in ps && PinnedBy(f, q, id) {
          if id in b && id !in a { assert PinnedBy(f, p, id); }
        }
        forall id | id in b ensures exists q :: q in ps && PinnedBy(f, q, id) && b[id] == Row(f.byModel[q.modelId], f.byNode[id], ByPin) {
          if id !in a { assert PinnedBy(f, p, id); }
        }
      }
    }
  }

  // ----- one quota step ------------------------------------------------------------

  lemma {:induction false} AssignAllFacts(a: Assigned, ns: seq<Node>, m: PlanModel, reason: Reason)
    requires UniqueIds(ns)
    ensures var b := AssignAll(a, ns, m, reason);
            && (forall n :: n in ns ==> n.id in b && b[n.id] == Row(m, n, reason))
            && (forall id :: id in b ==> id in a || exists n :: n in ns && n.id == id)
            && (forall id :: id in a && (forall n :: n in ns ==> n.id != id) ==> id in b && b[id] == a[id])
  {
    hide Row;
    if ns != [] {
      var init, last := ns[..|ns| - 1], ns[|ns| - 1];
      assert ns == init + [last];
      forall i, j | 0 <= i < |init| && 0 <= j < |init| && init[i].id == init[j].id ensures i == j {
        assert ns[i].id == ns[j].id;
      }
      forall n | n in init ensures n.id != last.id {
        var i :| 0 <= i < |init| && init[i] == n;
        assert ns[i] == n;
      }
      AssignAllFacts(a, init, m, reason);
    }
  }

  lemma {:induction false} FilterUnique(g: Node -> bool, ns: seq<Node>)
    requires UniqueIds(ns)
    ensures UniqueIds(Filter(g, ns))
  {
    assert Distinct(ns);
    DistinctMultiset(ns);
    var r := Filter(g, ns);
    forall x ensures multiset(r)[x] <= 1 { FilterMultiset(g, ns, x); }
    DistinctMultiset(r);
    forall i, j | 0 <= i < |r| && 0 <= j < |r| && r[i].id == r[j].id ensures i == j {
      assert r[i] in r && r[j] in r;
      assert r[i] == r[j];
    }
  }

  /** The nodes a policy takes: free and eligible, no id twice, and each at
      least as good for the model as every free eligible node it leaves. */
  lemma ChosenFacts(f: Fleet, a: Assigned, p: Policy)
    requires FleetOk(f) && p.modelId in f.byModel
    ensures var c, free := Chosen(f, a, p), FreeNodes(f, a, p);
            && UniqueIds(c) && UniqueIds(free)
            && (forall n :: n in c ==> n in free)
            && (forall x, y :: x in c && y in free && y !in c ==> PreferFor(p.modelId, x, y) <= 0)
  {
    var free := FreeNodes(f, a, p);
    var s := Sort(Preferred(p.modelId), free);
    var k := Got(f, a, p);
    FilterUnique(EligibleFree(f, a, p), f.nodes);
    PreferIsTotal(p.modelId);
    SortSorts(Preferred(p.modelId), free);
    SameElements(s, free);
    UniqueIdsPermute(free, s);
    var c := s[..k];
    forall i, j | 0 <= i < |c| && 0 <= j < |c| && c[i].id == c[j].id ensures i == j {
      assert s[i].id == s[j].id;
    }
    PrefixIsFirst(Preferred(p.modelId), s, k);
    assert forall x, y :: x in c && y in free && y !in c ==> Preferred(p.modelId)(x, y);
  }

  ghost predicate Takes(f: Fleet, a: Assigned, p: Policy, id: string)
    requires p.modelId in f.byModel
  {
    id in f.byNode && f.byNode[id] in Chosen(f, a, p)
  }

  /** One policy's turn adds exactly the rows of the nodes it takes. */
  lemma QuotaFacts(f: Fleet, a: Assigned, p: Policy)
    requires FleetOk(f) && GoodRows(f, a) && p.modelId in f.byModel
    ensures var b := Quota(f, a, p);
            && GoodRows(f, b)
            && (forall id :: id in b <==> id in a || Takes(f, a, p, id))
            && (forall id :: Takes(f, a, p, id) ==> id !in a)
            && (forall id :: id in a ==> b[id] == a[id])
            && (forall id :: id in b && id !in a ==> 
                  && Eligible(f, p, f.byNode[id])
                  && b[id] == Row(f.byModel[p.modelId], f.byNode[id], ReasonOf(p.mode)))
  {
    hide FitsNode, EstRAM, PredictedTPS;
    ChosenFacts(f, a, p);
    var c := Chosen(f, a, p);
    AssignAllFacts(a, c, f.byModel[p.modelId], ReasonOf(p.mode));
    forall n | n in c ensures n in f.nodes && f.byNode[n.id] == n && n.id !in a && Eligible(f, p, n) {
      assert n in FreeNodes(f, a, p);
      FreeMeansAbsent(f, a, n.id);
    }
    forall id | Takes(f, a, p, id) ensures id !in a && id in Quota(f, a, p) {
      assert f.byNode[id].id == id;
    }
  }

  // ----- the order of the turns --------------------------------------------------------

  lemma BiggerFirstIsTotal(byModel: map<string, PlanModel>)
    ensures TotalPreorder(BiggerFirst(byModel))
  {
    hide EstRAM;
    var le := BiggerFirst(byModel);
    forall a: Policy, b: Policy ensures le(a, b) || le(b, a) { CompareFlips(a.modelId, b.modelId); }
    forall a: Policy, b: Policy, c: Policy | le(a, b) && le(b, c) ensures le(a, c) {
      if Compare(a.modelId, b.modelId) <= 0 && Compare(b.modelId, c.modelId) <= 0 { CompareTransitive(a.modelId, b.modelId, c.modelId); }
    }
  }

  /** A ready policy q goes before p, or with it: bigger models first, equals by
      model id. */
  ghost predicate NotAfter(f: Fleet, q: Policy, p: Policy)
    requires p.modelId in f.byModel && q.modelId in f.byModel
  {
    var a, b := EstRAM(f.byModel[q.modelId]), EstRAM(f.byModel[p.modelId]);
    a > b || (a == b && Compare(q.modelId, p.modelId) <= 0)
  }

  lemma TurnIsSorted(f: Fleet, ps: seq<Policy>, mode: Mode)
    ensures Sorted(BiggerFirst(f.byModel), Turn(f, ps, mode))
  {
    BiggerFirstIsTotal(f.byModel);
    SortSorts(BiggerFirst(f.byModel), Filter(ReadyIn(f.byModel, mode), ps));
    hide EstRAM, Filter, Sort, BiggerFirst, Sorted, ReadyIn;
  }

  lemma TurnInOrder(f: Fleet, ps: seq<Policy>, mode: Mode, k: nat, i: nat)
    requires k <= i < |Turn(f, ps, mode)|
    ensures var t := Turn(f, ps, mode); t[k] in t && t[i] in t && NotAfter(f, t[k], t[i])
  {
    BiggerFirstIsTotal(f.byModel);
    TurnIsSorted(f, ps, mode);
    var t := Turn(f, ps, mode);
    hide EstRAM, Turn;
    assert t[k] in t && t[i] in t;
    assert BiggerFirst(f.byModel)(t[k], t[i]);
  }

  lemma TurnsAre(f: Fleet, ps: seq<Policy>)
    ensures Turns(f, ps) == Turn(f, ps, Replicas) + Turn(f, ps, Percent)
  {
    hide Turn;
  }

  lemma TurnsAt(f: Fleet, ps: seq<Policy>, j: nat)
    requires j < |Turns(f, ps)|
    ensures var r, s, p := Turn(f, ps, Replicas), Turn(f, ps, Percent), Turns(f, ps)[j];
            && p in Turns(f, ps) && p.modelId in f.byModel && |Turns(f, ps)| == |r| + |s|
            && if j < |r| then p == r[j] && p.mode.Replicas? else p == s[j - |r|] && p.mode.Percent?
  {
    hide *;
    TurnsAre(f, ps);
    var r, s := Turn(f, ps, Replicas), Turn(f, ps, Percent);
    if j < |r| { assert r[j] in r; } else { assert s[j - |r|] in s; }
  }

  /** Replicas policies have their turns before percent policies, and within a
      mode bigger models choose first. */
  lemma TurnsInOrder(f: Fleet, ps: seq<Policy>, k: nat, i: nat)
    requires k <= i < |Turns(f, ps)|
    ensures var ts := Turns(f, ps);
            && ts[k] in ts && ts[i] in ts
            && (ts[k].mode.Replicas? || ts[i].mode.Percent?)
            && (ts[k].mode == ts[i].mode ==> NotAfter(f, ts[k], ts[i]))
  {
    hide *;
    TurnsAt(f, ps, k);
    TurnsAt(f, ps, i);
    var n := |Turn(f, ps, Replicas)|;
    if i < n { TurnInOrder(f, ps, Replicas, k, i); } else if k >= n { TurnInOrder(f, ps, Percent, k - n, i - n); }
  }

  // ----- all the turns ---------------------------------------------------------------

  lemma PinsAreFirst(f: Fleet, pins: Assigned)
    ensures Quotas(f, pins, []) == pins
  {
  }

  lemma QuotasStep(f: Fleet, a: Assigned, ts: seq<Policy>, i: nat)
    requires Ready(f, ts) && i < |ts|
    ensures ts[i] in ts
    ensures Quotas(f, a, ts[..i + 1]) == Quota(f, Quotas(f, a, ts[..i]), ts[i])
  {
    assert ts[..i + 1][..i] == ts[..i];
  }

  /** id got its row from a policy of ps that it is eligible for. */
  ghost predicate From(f: Fleet, ps: seq<Policy>, row: Assignment, id: string)
    requires Ready(f, ps) && id in f.byNode
  {
    exists p :: p in ps && row.modelId == p.modelId && row.reason == ReasonOf(p.mode) && Eligible(f, p, f.byNode[id])
  }

  lemma {:induction false} QuotasGood(f: Fleet, pins: Assigned, ts: seq<Policy>, i: nat)
    requires FleetOk(f) && GoodRows(f, pins) && Ready(f, ts) && i <= |ts|
    ensures GoodRows(f, Quotas(f, pins, ts[..i]))
  {
    hide Quota;
    if i > 0 {
      QuotasGood(f, pins, ts, i - 1);
      QuotasStep(f, pins, ts, i - 1);
      QuotaFacts(f, Quotas(f, pins, ts[..i - 1]), ts[i - 1]);
    }
  }

  lemma FromMore(f: Fleet, ps: seq<Policy>, qs: seq<Policy>, row: Assignment, id: string)
    requires Ready(f, ps) && Ready(f, qs) && id in f.byNode && From(f, ps, row, id) && forall p :: p in ps ==> p in qs
    ensures From(f, qs, row, id)
  {
    hide Eligible, ReasonOf;
  }

  /** The turns i..k never change an entry made before them. */
  lemma {:induction false} TurnsKeep(f: Fleet, pins: Assigned, ts: seq<Policy>, i: nat, k: nat)
    requires FleetOk(f) && GoodRows(f, pins) && Ready(f, ts) && i <= k <= |ts|
    ensures var a, b := Quotas(f, pins, ts[..i]), Quotas(f, pins, ts[..k]);
            forall id :: id in a ==> id in b && b[id] == a[id]
    decreases k
  {
    hide Quota, GoodRows, Eligible, Takes, Row;
    if i < k {
      TurnsKeep(f, pins, ts, i, k - 1);
      QuotasGood(f, pins, ts, k - 1);
      QuotasStep(f, pins, ts, k - 1);
      QuotaFacts(f, Quotas(f, pins, ts[..k - 1]), ts[k - 1]);
    }
  }

  /** One turn's new entries come from its policy. */
  lemma QuotaFrom(f: Fleet, a: Assigned, p: Policy, ps: seq<Policy>)
    requires FleetOk(f) && GoodRows(f, a) && Ready(f, ps) && p in ps
    ensures var b := Quota(f, a, p);
            forall id :: id in b && id !in a ==> id in f.byNode && From(f, ps, b[id], id)
  {
    hide Quota, Eligible, ReasonOf, EstRAM, FitsNode, PredictedTPS, Takes;
    QuotaFacts(f, a, p);
    var b := Quota(f, a, p);
    forall id | id in b && id !in a ensures id in f.byNode && From(f, ps, b[id], id) {
      assert b[id].modelId == p.modelId && b[id].reason == ReasonOf(p.mode);
    }
  }

  /** What was still free at turn i goes only to the policies of turns i..k. */
  lemma {:induction false} TurnsGive(f: Fleet, pins: Assigned, ts: seq<Policy>, i: nat, k: nat)
    requires FleetOk(f) && GoodRows(f, pins) && Ready(f, ts) && i <= k <= |ts|
    ensures var a, b := Quotas(f, pins, ts[..i]), Quotas(f, pins, ts[..k]);
            forall id :: id in b && id !in a ==> id in f.byNode && From(f, ts[i..k], b[id], id)
    decreases k
  {
    hide Quota, GoodRows, From;
    if i < k {
      TurnsGive(f, pins, ts, i, k - 1);
      QuotasGood(f, pins, ts, k - 1);
      QuotasStep(f, pins, ts, k - 1);
      var a, b, c := Quotas(f, pins, ts[..i]), Quotas(f, pins, ts[..k - 1]), Quotas(f, pins, ts[..k]);
      assert ts[i..k] == ts[i..k - 1] + [ts[k - 1]];
      QuotaFrom(f, b, ts[k - 1], ts[i..k]);
      TurnsKeep(f, pins, ts, k - 1, k);
      forall id | id in c && id !in a ensures id in f.byNode && From(f, ts[i..k], c[id], id) {
        if id in b { FromMore(f, ts[i..k - 1], ts[i..k], b[id], id); }
      }
    }
  }

  /** Nothing assigned before turn i changes in turns i..k, and what was still
      free at turn i goes only to the policies of those turns. */
  lemma TurnFacts(f: Fleet, pins: Assigned, ts: seq<Policy>, i: nat, k: nat)
    requires FleetOk(f) && GoodRows(f, pins) && Ready(f, ts) && i <= k <= |ts|
    ensures var a, b := Quotas(f, pins, ts[..i]), Quotas(f, pins, ts[..k]);
            && GoodRows(f, a) && GoodRows(f, b)
            && (forall id :: id in a ==> id in b && b[id] == a[id])
            && (forall id :: id in b && id !in a ==> From(f, ts[i..k], b[id], id))
  {
    QuotasGood(f, pins, ts, i);
    QuotasGood(f, pins, ts, k);
    TurnsKeep(f, pins, ts, i, k);
    TurnsGive(f, pins, ts, i, k);
    hide Quotas, From, FleetOk, Row;
  }
}
