/** Pools of nodes and the conflicts between them (controller/pools.go). */
module Pools {
  import opened Ordering
  import opened Text
  import opened Wrappers
  import opened NodeRegistry
  import PlannerModel

  datatype Routing = Unset | Spread | Affinity | Superborg | BigBrain | Unknown(name: string)

  datatype Pool = Pool(name: string, models: seq<string>, nodes: seq<string>, classes: seq<string>, minGenTPS: real,
                       routing: Routing, orchestrator: string, model: string, ctxSize: int, disabled: bool)

  // ----- validation -------------------------------------------------------------------

  predicate HasBlank(vs: seq<string>) { exists v :: v in vs && TrimSpace(v) == "" }

  /** Trimmed entries, each once, in order of first appearance. */
  function Cleaned(vs: seq<string>): seq<string>
  {
    if vs == [] then []
    else
      var c := Cleaned(vs[..|vs| - 1]);
      var v := TrimSpace(vs[|vs| - 1]);
      if v in c then c else c + [v]
  }

  method Clean(vs: seq<string>) returns (r: Option<seq<string>>)
    ensures r == if HasBlank(vs) then None else Some(Cleaned(vs))
  {
    var out := [];
    for i := 0 to |vs|
      invariant out == Cleaned(vs[..i]) && !HasBlank(vs[..i])
    {
      assert vs[..i + 1][..i] == vs[..i] && vs[..i + 1] == vs[..i] + [vs[i]];
      var v := TrimSpace(vs[i]);
      if v == "" {
        assert vs[i] in vs;
        return None;
      }
      if v !in out { out := out + [v]; }
    }
    assert vs[..|vs|] == vs;
    return Some(out);
  }

  /** The fields a Big Brain pool may not have, and must have. */
  predicate BigBrainOk(p: Pool)
  {
    && p.model != "" && |p.nodes| >= 2 && p.models == [] && p.classes == [] && p.minGenTPS <= 0.0
    && (p.ctxSize == 0 || 512 <= p.ctxSize <= 131072)
  }

  /** What normPool returns. */
  function Norm(p: Pool): Option<Pool>
  {
    if !NameOk(p.name) || HasBlank(p.models) || HasBlank(p.nodes) || HasBlank(p.classes) then None
    else
      var q := p.(orchestrator := TrimSpace(p.orchestrator), models := Cleaned(p.models), nodes := Cleaned(p.nodes), classes := Cleaned(p.classes));
      if (exists c :: c in q.classes && c !in PlannerModel.CLASSES) || q.minGenTPS < 0.0 then None
      else match q.routing
        case Unset => Some(q.(routing := Spread))
        case BigBrain =>
          var b := q.(model := TrimSpace(q.model));
          if BigBrainOk(b) then Some(b) else None
        case Unknown(_) => None
        case _ => Some(q)
  }

  method NormPool(p: Pool) returns (r: Option<Pool>)
    ensures r == Norm(p)
  {
    hide TrimSpace, HasBlank, Cleaned, NameOk;
    var q := p.(orchestrator := TrimSpace(p.orchestrator));
    if !NameOk(p.name) { return None; }
    var models := Clean(p.models);
    if models.None? { return None; }
    var nodes := Clean(p.nodes);
    if nodes.None? { return None; }
    var classes := Clean(p.classes);
    if classes.None? { return None; }
    q := q.(models := models.value, nodes := nodes.value, classes := classes.value);
    for i := 0 to |q.classes|
      invariant forall k :: 0 <= k < i ==> q.classes[k] in PlannerModel.CLASSES
    {
      if q.classes[i] !in PlannerModel.CLASSES { return None; }
    }
    if q.minGenTPS < 0.0 { return None; }
    match q.routing {
      case Unset => return Some(q.(routing := Spread));
      case BigBrain =>
        q := q.(model := TrimSpace(q.model));
        if q.model == "" || |q.nodes| < 2 || |q.models| > 0 || |q.classes| > 0 || q.minGenTPS > 0.0
           || (q.ctxSize != 0 && (q.ctxSize < 512 || q.ctxSize > 131072)) {
          return None;
        }
        return Some(q);
      case Unknown(_) => return None;
      case _ => return Some(q);
    }
  }

  // ----- saved pools load again ---------------------------------------------------------

  lemma {:induction false} TrimRightTwice(s: string)
    ensures TrimRight(TrimRight(s)) == TrimRight(s)
    ensures s != [] && !IsSpace(s[0]) ==> TrimRight(s) != [] && TrimRight(s)[0] == s[0]
  {
    if s != [] && IsSpace(s[|s| - 1]) { TrimRightTwice(s[..|s| - 1]); }
  }

  lemma {:induction false} TrimLeftTwice(s: string)
    ensures TrimLeft(s) == [] || !IsSpace(TrimLeft(s)[0])
  {
    if s != [] && IsSpace(s[0]) { TrimLeftTwice(s[1..]); }
  }

  lemma TrimTwice(s: string)
    ensures TrimSpace(TrimSpace(s)) == TrimSpace(s)
  {
    TrimLeftTwice(s);
    TrimRightTwice(TrimLeft(s));
  }

  lemma {:induction false} CleanedIsClean(vs: seq<string>)
    ensures forall v :: v in Cleaned(vs) ==> TrimSpace(v) == v && exists x :: x in vs && v == TrimSpace(x)
    ensures Distinct(Cleaned(vs))
  {
    if vs != [] {
      CleanedIsClean(vs[..|vs| - 1]);
      TrimTwice(vs[|vs| - 1]);
    }
  }

  lemma {:induction false} CleanStays(vs: seq<string>)
    requires Distinct(vs) && forall v :: v in vs ==> TrimSpace(v) == v
    ensures Cleaned(vs) == vs
  {
    if vs != [] {
      DistinctInit(vs);
      assert vs == vs[..|vs| - 1] + [vs[|vs| - 1]];
      CleanStays(vs[..|vs| - 1]);
    }
  }

  lemma CleanTwice(vs: seq<string>)
    ensures Cleaned(Cleaned(vs)) == Cleaned(vs) && (!HasBlank(vs) ==> !HasBlank(Cleaned(vs)))
  {
    CleanedIsClean(vs);
    CleanStays(Cleaned(vs));
  }

  /** A stored pool is accepted unchanged when the routing file is loaded. */
  lemma NormTwice(p: Pool)
    requires Norm(p).Some?
    ensures Norm(Norm(p).value) == Norm(p)
  {
    CleanTwice(p.models);
    CleanTwice(p.nodes);
    CleanTwice(p.classes);
    TrimTwice(p.orchestrator);
    TrimTwice(p.model);
    hide Cleaned, TrimSpace, HasBlank, NameOk;
  }

  /** Two entries differ after trimming. */
  ghost predicate TwoDiffer(vs: seq<string>) { exists v, w :: v in vs && w in vs && TrimSpace(v) != TrimSpace(w) }

  lemma {:induction false} CleanedHasAll(vs: seq<string>)
    ensures forall v :: v in vs ==> TrimSpace(v) in Cleaned(vs)
  {
    hide TrimSpace;
    if vs != [] {
      var init, last := vs[..|vs| - 1], vs[|vs| - 1];
      CleanedHasAll(init);
      assert forall v :: v in vs ==> v in init || v == last;
    }
  }

  lemma CleanedSize(vs: seq<string>)
    ensures |Cleaned(vs)| >= 2 <==> TwoDiffer(vs)
    ensures Cleaned(vs) == [] <==> vs == []
  {
    CleanedHasAll(vs);
    CleanedIsClean(vs);
    hide Cleaned, TrimSpace;
    var c := Cleaned(vs);
    assert vs != [] ==> vs[0] in vs;
    assert c != [] ==> c[0] in c;
    if |c| >= 2 {
      assert c[0] in c && c[1] in c && c[0] != c[1];
      var v :| v in vs && c[0] == TrimSpace(v);
      var w :| w in vs && c[1] == TrimSpace(w);
    }
    if v, w :| v in vs && w in vs && TrimSpace(v) != TrimSpace(w) {
      var i :| 0 <= i < |c| && c[i] == TrimSpace(v);
      var j :| 0 <= j < |c| && c[j] == TrimSpace(w);
      assert i != j;
    }
  }

  /** Which pools are accepted. */
  lemma AcceptedExactly(p: Pool)
    ensures Norm(p).Some? <==>
              && NameOk(p.name) && (forall v :: v in p.models + p.nodes + p.classes ==> TrimSpace(v) != "")
              && (forall c :: c in p.classes ==> TrimSpace(c) in ["xs", "s", "m", "l", "xl"]) && p.minGenTPS >= 0.0 && !p.routing.Unknown?
              && (p.routing == BigBrain ==>
                    && TrimSpace(p.model) != "" && TwoDiffer(p.nodes) && p.models == [] && p.classes == [] && p.minGenTPS == 0.0
                    && (p.ctxSize == 0 || 512 <= p.ctxSize <= 131072))
  {
    CleanedSize(p.models);
    CleanedSize(p.nodes);
    CleanedSize(p.classes);
    CleanedHasAll(p.classes);
    CleanedIsClean(p.classes);
    hide Cleaned, TrimSpace, NameOk, TwoDiffer;
    assert (forall v :: v in p.models + p.nodes + p.classes ==> TrimSpace(v) != "") <==> !HasBlank(p.models) && !HasBlank(p.nodes) && !HasBlank(p.classes);
    hide HasBlank;
  }

  // ----- conflicts -------------------------------------------------------------------------

  ghost predicate Names(p: Pool, reg: Aliases, node: string) { exists n :: n in p.nodes && Id(reg, n) == node }

  ghost predicate ShareNode(p: Pool, o: Pool, reg: Aliases)
  {
    exists n, m :: n in p.nodes && m in o.nodes && Id(reg, n) == Id(reg, m)
  }

  ghost predicate ShareModel(p: Pool, o: Pool) { exists m :: m in p.models && m in o.models }

  /** p restricts both its nodes and its models. */
  predicate Claims(p: Pool) { p.nodes != [] && p.models != [] }

  /** What poolConflict looks for besides a shared node. */
  ghost predicate Rivals(p: Pool, o: Pool)
  {
    && !p.disabled && !o.disabled && p.name != o.name
    && if p.routing == BigBrain then o.routing == BigBrain else Claims(p) && Claims(o) && !ShareModel(p, o)
  }

  /** What poolConflict looks for in o, when p is to be enabled. */
  ghost predicate Finds(p: Pool, o: Pool, reg: Aliases) { Rivals(p, o) && ShareNode(p, o, reg) }

  method HasNode(nodes: seq<string>, id: string, registry: Registry) returns (found: bool)
    requires registry.Valid()
    ensures found <==> exists m :: m in nodes && Id(registry.aliases, m) == id
  {
    for i := 0 to |nodes|
      invariant forall k :: 0 <= k < i ==> Id(registry.aliases, nodes[k]) != id
    {
      var v, _ := registry.Lookup(nodes[i]);
      if v == id {
        assert nodes[i] in nodes;
        return true;
      }
    }
    return false;
  }

  method SharesNode(p: Pool, o: Pool, registry: Registry) returns (found: bool)
    requires registry.Valid()
    ensures found <==> ShareNode(p, o, registry.aliases)
  {
    for i := 0 to |o.nodes|
      invariant forall k :: 0 <= k < i ==> !exists n :: n in p.nodes && Id(registry.aliases, n) == Id(registry.aliases, o.nodes[k])
    {
      var id, _ := registry.Lookup(o.nodes[i]);
      found := HasNode(p.nodes, id, registry);
      if found {
        assert o.nodes[i] in o.nodes;
        return;
      }
    }
    found := false;
  }

  method SharesModel(p: Pool, o: Pool) returns (found: bool)
    ensures found <==> ShareModel(p, o)
  {
    for i := 0 to |o.models|
      invariant forall k :: 0 <= k < i ==> o.models[k] !in p.models
    {
      if o.models[i] in p.models {
        assert o.models[i] in o.models;
        return true;
      }
    }
    return false;
  }

  /** poolConflict: the pool p conflicts with, if any. */
  method PoolConflict(p: Pool, others: seq<Pool>, registry: Registry) returns (c: Option<Pool>)
    requires registry.Valid()
    ensures c.Some? ==> c.value in others && Finds(p, c.value, registry.aliases)
    ensures c.None? ==> forall o :: o in others ==> !Finds(p, o, registry.aliases)
  {
    hide ShareNode, ShareModel;
    if p.routing == BigBrain && !p.disabled {
      for i := 0 to |others|
        invariant forall k :: 0 <= k < i ==> !Finds(p, others[k], registry.aliases)
      {
        var o := others[i];
        if !(o.name == p.name || o.routing != BigBrain || o.disabled) {
          var shared := SharesNode(p, o, registry);
          if shared { return Some(o); }
        }
      }
      return None;
    }
    if p.disabled || |p.nodes| == 0 || |p.models| == 0 { return None; }
    for i := 0 to |others|
      invariant forall k :: 0 <= k < i ==> !Finds(p, others[k], registry.aliases)
    {
      var o := others[i];
      if !(o.name == p.name || o.disabled || |o.nodes| == 0 || |o.models| == 0) {
        var common := SharesModel(p, o);
        if !common {
          var shared := SharesNode(p, o, registry);
          if shared { return Some(o); }
        }
      }
    }
    return None;
  }

  ghost predicate Normal(p: Pool) { p.routing != Unset && Norm(p) == Some(p) }

  lemma NormIsNormal(p: Pool)
    requires Norm(p).Some?
    ensures Normal(Norm(p).value)
  {
    NormTwice(p);
    hide Cleaned, TrimSpace, HasBlank, NameOk;
  }

  lemma SharingIsMutual(p: Pool, o: Pool, reg: Aliases)
    ensures ShareNode(p, o, reg) <==> ShareNode(o, p, reg)
    ensures ShareModel(p, o) <==> ShareModel(o, p)
  {
    if n, m :| n in p.nodes && m in o.nodes && Id(reg, n) == Id(reg, m) { assert Id(reg, m) == Id(reg, n); }
    if n, m :| n in o.nodes && m in p.nodes && Id(reg, n) == Id(reg, m) { assert Id(reg, m) == Id(reg, n); }
  }

  /** Looking from either pool finds the same conflict, except exactly between a
      Big Brain pool and another kind of pool that both claim a node and share
      no model. */
  lemma ConflictIsSymmetric(p: Pool, o: Pool, reg: Aliases)
    ensures (Finds(p, o, reg) <==> Finds(o, p, reg))
            <==> !(&& (p.routing == BigBrain) != (o.routing == BigBrain)
                   && Claims(p) && Claims(o) && !ShareModel(p, o)
                   && ShareNode(p, o, reg) && !p.disabled && !o.disabled && p.name != o.name)
  {
    SharingIsMutual(p, o, reg);
    hide ShareNode, ShareModel;
  }

  /** normPool refuses such a pool; without it the order of creation decides
      whether the conflict is seen. */
  lemma UnnormalisedIsAsymmetric()
    ensures var big := Pool("big", ["a"], ["x"], [], 0.0, BigBrain, "", "m", 0, false);
            var plain := Pool("plain", ["b"], ["x"], [], 0.0, Spread, "", "", 0, false);
            Finds(plain, big, map[]) && !Finds(big, plain, map[]) && Norm(big).None?
  {
    var big := Pool("big", ["a"], ["x"], [], 0.0, BigBrain, "", "m", 0, false);
    var plain := Pool("plain", ["b"], ["x"], [], 0.0, Spread, "", "", 0, false);
    assert "x" in big.nodes && "x" in plain.nodes && Id(map[], "x") == "x";
    assert !ShareModel(plain, big) by { assert "a" != "b"; }
    assert Cleaned(["a"]) != [] by { assert Cleaned(["a"][..0]) == []; }
  }

  // ----- the store ---------------------------------------------------------------------------

  ghost predicate Consistent(byName: map<string, Pool>, reg: Aliases)
  {
    && (forall n :: n in byName ==> byName[n].name == n && Normal(byName[n]))
    && (forall a, b :: a in byName && b in byName ==> !Finds(byName[a], byName[b], reg))
  }

  /** What consistency is for: an enabled Big Brain shares no phone with another
      one, and a node of two enabled pools has a model that serves both. */
  lemma NoPhoneIsTornApart(byName: map<string, Pool>, reg: Aliases, a: string, b: string, node: string)
    requires Consistent(byName, reg) && a in byName && b in byName && a != b
    requires var p, o := byName[a], byName[b];
             !p.disabled && !o.disabled && Names(p, reg, node) && Names(o, reg, node)
    ensures var p, o := byName[a], byName[b];
            && !(p.routing == BigBrain && o.routing == BigBrain)
            && (p.models != [] && o.models != [] ==> ShareModel(p, o))
  {
    var p, o := byName[a], byName[b];
    SharedName(p, o, reg, node);
    BigBrainsDoNotClaim(p, o);
    hide Normal, ShareNode, ShareModel, Names;
    assert !Finds(p, o, reg);
  }

  lemma SharedName(p: Pool, o: Pool, reg: Aliases, node: string)
    requires Names(p, reg, node) && Names(o, reg, node)
    ensures ShareNode(p, o, reg) && p.nodes != [] && o.nodes != []
  {
  }

  lemma NormalBigBrain(p: Pool)
    requires Normal(p) && p.routing == BigBrain
    ensures p.models == []
  {
    hide Cleaned, TrimSpace, HasBlank, NameOk;
  }

  lemma StoreKeeps(byName: map<string, Pool>, reg: Aliases, p: Pool)
    requires Consistent(byName, reg) && Normal(p) && forall n :: n in byName ==> !Finds(p, byName[n], reg)
    ensures Consistent(byName[p.name := p], reg)
  {
    hide Normal;
    var after := byName[p.name := p];
    forall a, b | a in after && b in after ensures !Finds(after[a], after[b], reg) {
      if b == p.name && a != p.name {
        BigBrainsDoNotClaim(p, byName[a]);
        ConflictIsSymmetric(p, byName[a], reg);
      }
    }
  }

  lemma BigBrainsDoNotClaim(p: Pool, o: Pool)
    requires Normal(p) && Normal(o)
    ensures p.routing == BigBrain ==> !Claims(p)
    ensures o.routing == BigBrain ==> !Claims(o)
  {
    if p.routing == BigBrain { NormalBigBrain(p); }
    if o.routing == BigBrain { NormalBigBrain(o); }
  }

  datatype Answer = BadRequest | Conflict(other: string) | Stored | NotFound

  /** The routing state: the stored pools and the aliases they are read with. */
  datatype State = State(byName: map<string, Pool>, reg: Aliases)

  ghost predicate AllNormal(byName: map<string, Pool>)
  {
    forall n :: n in byName ==> byName[n].name == n && Normal(byName[n])
  }

  class Store {
    const registry: Registry
    var byName: map<string, Pool>

    ghost predicate Valid()
      reads this, registry
    {
      registry.Valid() && AllNormal(byName)
    }

    ghost function Now(): State
      reads this, registry
    {
      State(byName, registry.aliases)
    }

    constructor ()
      ensures Valid() && fresh(registry) && Now() == State(map[], map[]) && registry.nodes == {}
    {
      registry := new Registry();
      byName := map[];
    }

    method Others() returns (others: seq<Pool>)
      ensures forall o :: o in others <==> exists n :: n in byName && byName[n] == o
    {
      others := [];
      var left := byName.Keys;
      while left != {}
        invariant left <= byName.Keys
        invariant forall o :: o in others <==> exists n :: n in byName && n !in left && byName[n] == o
        decreases |left|
      {
        var n :| n in left;
        left := left - {n};
        others := others + [byName[n]];
      }
    }

    /** adminSetPool: validates, checks against every stored pool, stores. */
    method SetPool(p: Pool, inCatalog: string -> bool) returns (a: Answer)
      requires Valid()
      modifies this`byName
      ensures Valid() && (Consistent(old(byName), registry.aliases) ==> Consistent(byName, registry.aliases))
      ensures a.BadRequest? <==> Norm(p).None? || (Norm(p).value.routing == BigBrain && !inCatalog(Norm(p).value.model))
      ensures a.Stored? ==> && byName == old(byName)[p.name := Norm(p).value]
                            && forall n :: n in old(byName) ==> !Finds(Norm(p).value, old(byName)[n], registry.aliases)
      ensures a.Conflict? ==> a.other in byName && Finds(Norm(p).value, byName[a.other], registry.aliases)
      ensures !a.Stored? ==> byName == old(byName)
      ensures !a.NotFound?
    {
      hide Norm, Normal, Finds, UniqueAliases;
      var q := NormPool(p);
      if q.None? || (q.value.routing == BigBrain && !inCatalog(q.value.model)) { return BadRequest; }
      NormIsNormal(p);
      NormName(p);
      var others := Others();
      var c := PoolConflict(q.value, others, registry);
      if c.Some? { return Conflict(c.value.name); }
      if Consistent(byName, registry.aliases) { StoreKeeps(byName, registry.aliases, q.value); }
      byName := byName[q.value.name := q.value];
      return Stored;
    }

    method Delete(name: string) returns (a: Answer)
      requires Valid()
      modifies this`byName
      ensures Valid() && byName == old(byName) - {name} && a == if name in old(byName) then Stored else NotFound
      ensures Consistent(old(byName), registry.aliases) ==> Consistent(byName, registry.aliases)
    {
      hide Normal, Finds, UniqueAliases;
      a := if name in byName then Stored else NotFound;
      byName := byName - {name};
    }

    /** adminSetAlias: external nodes share the names; pools are not looked at. */
    method SetAlias(id: string, alias: string, external: string -> bool) returns (a: AliasAnswer)
      requires Valid()
      modifies registry`aliases
      ensures Valid() && a == if alias != "" && external(alias) then TakenAlias else AliasAnswerOf(registry.nodes, old(registry.aliases), id, alias)
      ensures registry.aliases == if a.AliasSet? then Renamed(old(registry.aliases), id, alias) else old(registry.aliases)
    {
      hide Normal, UniqueAliases;
      if alias != "" && external(alias) { return TakenAlias; }
      a := registry.SetAlias(id, alias);
    }
  }

  lemma NormName(p: Pool)
    requires Norm(p).Some?
    ensures Norm(p).value.name == p.name
  {
  }

  // ----- renaming ------------------------------------------------------------------------------

  /** Giving id this alias makes n and m names of one node: n is the new alias
      and m the id, which no other node has as alias; or n is the old alias,
      which is another node's id, and m that node's alias. */
  ghost predicate Pairs(reg: Aliases, id: string, alias: string, n: string, m: string)
  {
    || (alias != "" && n == alias && m == id && forall i :: i in reg && reg[i] == id ==> i == id)
    || (id in reg && (alias == "" || reg[id] != alias) && reg[id] != id && n == reg[id] && reg[id] in reg && m == reg[reg[id]])
  }

  ghost predicate Joins(p: Pool, o: Pool, reg: Aliases, id: string, alias: string)
  {
    exists n, m :: n in p.nodes && m in o.nodes && (Pairs(reg, id, alias, n, m) || Pairs(reg, id, alias, m, n))
  }

  /** The renaming makes two rivals among the stored pools name one node. */
  ghost predicate Opens(s: State, id: string, alias: string)
  {
    exists a, b :: a in s.byName && b in s.byName && Rivals(s.byName[a], s.byName[b]) && Joins(s.byName[a], s.byName[b], s.reg, id, alias)
  }

  /** Two names that a renaming brings together. */
  lemma NewlyPaired(reg: Aliases, id: string, alias: string, n: string, m: string)
    requires UniqueAliases(reg) && UniqueAliases(Renamed(reg, id, alias)) && Id(reg, n) != Id(reg, m)
    ensures var after := Renamed(reg, id, alias);
            Id(after, n) == Id(after, m) <==> Pairs(reg, id, alias, n, m) || Pairs(reg, id, alias, m, n)
  {
    RenamedId(reg, id, alias, n);
    RenamedId(reg, id, alias, m);
    NamesOf(reg, n);
    NamesOf(reg, m);
    HolderKept(reg, id, alias);
    hide Id;
  }

  /** If the old alias is the id of another node with an alias, that alias is
      not the new one, and stays that node's. */
  lemma HolderKept(reg: Aliases, id: string, alias: string)
    requires UniqueAliases(reg) && UniqueAliases(Renamed(reg, id, alias))
    ensures id in reg && reg[id] in reg && reg[id] != id ==>
              reg[reg[id]] != reg[id] && Id(reg, reg[reg[id]]) == reg[id] && (alias != "" ==> reg[reg[id]] != alias)
  {
    var after := Renamed(reg, id, alias);
    if id in reg && reg[id] in reg && reg[id] != id {
      HolderIs(reg, reg[id]);
      assert after[reg[id]] == reg[reg[id]] && (alias != "" ==> after[id] == alias);
    }
  }

  lemma NewlyJoined(reg: Aliases, id: string, alias: string, p: Pool, o: Pool)
    requires UniqueAliases(reg) && UniqueAliases(Renamed(reg, id, alias)) && !ShareNode(p, o, reg)
    ensures ShareNode(p, o, Renamed(reg, id, alias)) <==> Joins(p, o, reg, id, alias)
  {
    hide Id, Renamed, Pairs, UniqueAliases;
    forall n, m | n in p.nodes && m in o.nodes
      ensures Id(Renamed(reg, id, alias), n) == Id(Renamed(reg, id, alias), m) <==> Pairs(reg, id, alias, n, m) || Pairs(reg, id, alias, m, n)
    {
      NewlyPaired(reg, id, alias, n, m);
    }
  }

  /** After node id gets the alias, consistent pools are still consistent if and
      only if the renaming opens no conflict, which the pools, the aliases and
      the two names decide before it is made. */
  lemma RenamingKeeps(s: State, id: string, alias: string)
    requires UniqueAliases(s.reg) && UniqueAliases(Renamed(s.reg, id, alias)) && Consistent(s.byName, s.reg)
    ensures Consistent(s.byName, Renamed(s.reg, id, alias)) <==> !Opens(s, id, alias)
  {
    hide ShareNode, Joins, Rivals, Normal, Renamed, UniqueAliases;
    var after := Renamed(s.reg, id, alias);
    if a, b :| a in s.byName && b in s.byName && Rivals(s.byName[a], s.byName[b]) && Joins(s.byName[a], s.byName[b], s.reg, id, alias) {
      RivalsJoin(s, id, alias, a, b);
      assert Finds(s.byName[a], s.byName[b], after);
    } else {
      forall a, b | a in s.byName && b in s.byName ensures !Finds(s.byName[a], s.byName[b], after) {
        if Rivals(s.byName[a], s.byName[b]) { RivalsJoin(s, id, alias, a, b); }
      }
    }
  }

  lemma RivalsJoin(s: State, id: string, alias: string, a: string, b: string)
    requires UniqueAliases(s.reg) && UniqueAliases(Renamed(s.reg, id, alias)) && Consistent(s.byName, s.reg)
    requires a in s.byName && b in s.byName && Rivals(s.byName[a], s.byName[b])
    ensures ShareNode(s.byName[a], s.byName[b], Renamed(s.reg, id, alias)) <==> Joins(s.byName[a], s.byName[b], s.reg, id, alias)
  {
    hide ShareNode, Joins, Rivals, Normal, Renamed, UniqueAliases;
    assert !Finds(s.byName[a], s.byName[b], s.reg);
    NewlyJoined(s.reg, id, alias, s.byName[a], s.byName[b]);
  }

  // ----- runs ----------------------------------------------------------------------------------

  datatype Request = Set(pool: Pool) | Remove(name: string) | Rename(id: string, alias: string) | Join(id: string) | Leave(id: string)

  /** What one request may do to the routing state. */
  ghost predicate Step(r: Request, s: State, t: State)
  {
    && UniqueAliases(s.reg) && UniqueAliases(t.reg)
    && match r
       case Set(p) =>
         t == s || (Norm(p).Some? && t == s.(byName := s.byName[p.name := Norm(p).value])
                    && forall n :: n in s.byName ==> !Finds(Norm(p).value, s.byName[n], s.reg))
       case Remove(name) => t == s.(byName := s.byName - {name})
       case Rename(id, alias) => t == s || t == s.(reg := Renamed(s.reg, id, alias))
       case _ => t == s
  }

  /** The request is a renaming that was made and opens a conflict. */
  ghost predicate Breaks(r: Request, s: State, t: State)
  {
    r.Rename? && t != s && Opens(s, r.id, r.alias)
  }

  lemma StepKeeps(r: Request, s: State, t: State)
    requires Step(r, s, t) && Consistent(s.byName, s.reg)
    ensures Consistent(t.byName, t.reg) <==> !Breaks(r, s, t)
  {
    hide Norm, Normal, Finds, Opens, UniqueAliases, Renamed;
    if t != s {
      match r {
        case Set(p) =>
          NormIsNormal(p);
          NormName(p);
          StoreKeeps(s.byName, s.reg, Norm(p).value);
        case Rename(id, alias) =>
          RenamingKeeps(s, id, alias);
        case _ =>
      }
    }
  }

  ghost predicate Steps(requests: seq<Request>, log: seq<State>)
  {
    && |log| == |requests| + 1 && log[0] == State(map[], map[])
    && forall i :: 0 <= i < |requests| ==> Step(requests[i], log[i], log[i + 1])
  }

  /** Over every sequence of requests the pools stay consistent if and only if no
      renaming that was made opened a conflict. */
  lemma {:induction false} ConsistentExactly(requests: seq<Request>, log: seq<State>, k: nat)
    requires Steps(requests, log) && k <= |requests|
    ensures (forall i :: 0 <= i <= k ==> Consistent(log[i].byName, log[i].reg))
            <==> forall i :: 0 <= i < k ==> !Breaks(requests[i], log[i], log[i + 1])
  {
    hide Step, Breaks, Finds, Normal;
    if k > 0 {
      ConsistentExactly(requests, log, k - 1);
      hide Consistent;
      assert Step(requests[k - 1], log[k - 1], log[k - 1 + 1]);
      if Consistent(log[k - 1].byName, log[k - 1].reg) { StepKeeps(requests[k - 1], log[k - 1], log[k]); }
    }
  }

  /** Joining and leaving nodes change no alias. */
  method Handle(s: Store, r: Request, inCatalog: string -> bool, external: string -> bool)
    requires s.Valid()
    modifies s`byName, s.registry
    ensures s.Valid() && Step(r, old(s.Now()), s.Now())
  {
    hide Norm, Normal, Finds, Renamed, UniqueAliases, AliasAnswerOf;
    match r {
      case Set(p) => var a := s.SetPool(p, inCatalog);
      case Remove(name) => var a := s.Delete(name);
      case Rename(id, alias) => var a := s.SetAlias(id, alias, external);
      case Join(id) => s.registry.Register(id);
      case Leave(id) => var known := s.registry.Forget(id);
    }
  }

  /** Any sequence of pool and alias requests. */
  method Serve(requests: seq<Request>, inCatalog: string -> bool, external: string -> bool) returns (s: Store, ghost log: seq<State>)
    ensures fresh(s) && s.Valid() && Steps(requests, log) && |log| == |requests| + 1 && log[|requests|] == s.Now()
    ensures (forall i :: 0 <= i <= |requests| ==> Consistent(log[i].byName, log[i].reg))
            <==> forall i :: 0 <= i < |requests| ==> !Breaks(requests[i], log[i], log[i + 1])
  {
    hide Step, Steps, Consistent, Breaks;
    s := new Store();
    log := [s.Now()];
    NoSteps();
    for i := 0 to |requests|
      invariant fresh(s) && fresh(s.registry) && s.Valid() && Steps(requests[..i], log) && |log| == i + 1 && log[i] == s.Now()
    {
      Handle(s, requests[i], inCatalog, external);
      StepsSnoc(requests[..i], log, requests[i], s.Now());
      assert requests[..i + 1] == requests[..i] + [requests[i]];
      log := log + [s.Now()];
    }
    assert requests[..|requests|] == requests;
    ConsistentExactly(requests, log, |requests|);
  }

  lemma NoSteps()
    ensures Steps([], [State(map[], map[])])
  {
  }

  lemma StepsSnoc(requests: seq<Request>, log: seq<State>, r: Request, s: State)
    requires Steps(requests, log) && Step(r, log[|requests|], s)
    ensures Steps(requests + [r], log + [s])
  {
    hide Step;
  }

  /** Such a renaming is accepted: of any two stored Big Brain pools without a
      common name, one may name a phone by its id and the other list a name that
      nobody has yet, until the phone is given it. */
  lemma RenamingCanConflict(p: Pool, o: Pool, id: string, alias: string)
    requires Normal(p) && Normal(o) && p.name != o.name && !p.disabled && !o.disabled && p.routing == BigBrain && o.routing == BigBrain
    requires !ShareNode(p, o, map[]) && id in p.nodes && alias in o.nodes && ValidAlias(alias)
    ensures var s := State(map[p.name := p, o.name := o], map[]);
            && AliasAnswerOf({id}, s.reg, id, alias).AliasSet?
            && Consistent(s.byName, s.reg) && Opens(s, id, alias) && !Consistent(s.byName, Renamed(s.reg, id, alias))
  {
    hide Normal, ValidAlias, Renamed;
    var s := State(map[p.name := p, o.name := o], map[]);
    SharingIsMutual(p, o, map[]);
    assert alias != "" by { BlankIsInvalid(); }
    assert id != alias by { assert id == alias ==> Id(map[], id) == Id(map[], alias); }
    assert Pairs(s.reg, id, alias, alias, id);
    assert Joins(p, o, s.reg, id, alias) && Rivals(s.byName[p.name], s.byName[o.name]);
    assert UniqueAliases(map[]);
    RenamedStaysUnique({id}, map[], id, alias);
    RenamingKeeps(s, id, alias);
  }

  lemma BlankIsInvalid()
    ensures !ValidAlias("")
  {
  }
}
