/** Node ids and aliases (controller/registry.go). */
module NodeRegistry {
  import opened Text
  import opened Wrappers

  predicate IsNameChar(c: char) { 'a' <= c <= 'z' || '0' <= c <= '9' }

  /** ^[a-z0-9][a-z0-9-]{0,31}$ */
  predicate NameOk(name: string)
  {
    1 <= |name| <= 32 && IsNameChar(name[0]) && forall i :: 1 <= i < |name| ==> IsNameChar(name[i]) || name[i] == '-'
  }

  /** The registry's aliases, by node id. */
  type Aliases = map<string, string>

  ghost predicate UniqueAliases(reg: Aliases)
  {
    forall i, j :: i in reg && j in reg && reg[i] == reg[j] ==> i == j
  }

  /** What a node name resolves to: the node that has it as its alias, else the
      node of that id, known or not. */
  ghost function Id(reg: Aliases, n: string): string
  {
    if exists i :: i in reg && reg[i] == n then
      var i :| i in reg && reg[i] == n;
      i
    else n
  }

  /** What the registry promises of a table of aliases: unique, and none is the
      id of another known node. */
  ghost predicate NoneShadowed(nodes: set<string>, reg: Aliases)
  {
    forall i :: i in reg && reg[i] in nodes ==> reg[i] == i
  }

  predicate ValidAlias(a: string) { NameOk(a) && !HasPrefix(a, "pool") && a != "auto" }

  datatype AliasAnswer = UnknownNode | InvalidAlias | TakenAlias | AliasSet

  ghost predicate Taken(nodes: set<string>, reg: Aliases, id: string, alias: string)
  {
    (alias in nodes && alias != id) || exists i :: i in reg && i != id && reg[i] == alias
  }

  /** What SetAlias answers. */
  ghost function AliasAnswerOf(nodes: set<string>, reg: Aliases, id: string, alias: string): AliasAnswer
  {
    if id !in nodes && (alias != "" || id !in reg) then UnknownNode
    else if alias == "" then AliasSet
    else if !ValidAlias(alias) then InvalidAlias
    else if Taken(nodes, reg, id, alias) then TakenAlias
    else AliasSet
  }

  function Renamed(reg: Aliases, id: string, alias: string): Aliases
  {
    if alias == "" then reg - {id} else reg[id := alias]
  }

  lemma HolderIs(reg: Aliases, id: string)
    requires UniqueAliases(reg) && id in reg
    ensures Id(reg, reg[id]) == id
  {
  }

  lemma RenamedStaysUnique(nodes: set<string>, reg: Aliases, id: string, alias: string)
    requires UniqueAliases(reg) && AliasAnswerOf(nodes, reg, id, alias).AliasSet?
    ensures UniqueAliases(Renamed(reg, id, alias))
    ensures NoneShadowed(nodes, reg) ==> NoneShadowed(nodes, Renamed(reg, id, alias))
  {
    hide ValidAlias;
  }

  /** A new alias is no name of a route, and at most 32 lower-case letters, digits
      and dashes that start with a letter or digit. */
  lemma RoutesKeepTheirNames(nodes: set<string>, reg: Aliases, id: string, alias: string)
    requires AliasAnswerOf(nodes, reg, id, alias).AliasSet? && alias != ""
    ensures alias != "auto" && !("pool" <= alias) && |alias| <= 32 && alias[0] != '-'
    ensures forall c :: c in alias ==> 'a' <= c <= 'z' || '0' <= c <= '9' || c == '-'
  {
  }

  /** Names other than the new and the old alias keep their meaning. */
  lemma RenamedId(reg: Aliases, id: string, alias: string, n: string)
    requires UniqueAliases(reg) && UniqueAliases(Renamed(reg, id, alias))
    ensures Id(Renamed(reg, id, alias), n) ==
              if alias != "" && n == alias then id else if id in reg && reg[id] == n then n else Id(reg, n)
  {
    var after := Renamed(reg, id, alias);
    if alias != "" && n == alias {
      HolderIs(after, id);
    } else if id !in reg || reg[id] != n {
      if i :| i in reg && reg[i] == n {
        HolderIs(reg, i);
        assert after[i] == n;
        HolderIs(after, i);
      }
    }
  }

  lemma NamesOf(reg: Aliases, n: string)
    requires UniqueAliases(reg)
    ensures Id(reg, n) == n || (Id(reg, n) in reg && reg[Id(reg, n)] == n)
    ensures Id(reg, n) == n <==> forall i :: i in reg && reg[i] == n ==> i == n
  {
    if i :| i in reg && reg[i] == n { HolderIs(reg, i); }
  }

  class Registry {
    var nodes: set<string>
    var aliases: Aliases

    ghost predicate Valid()
      reads this
    {
      UniqueAliases(aliases)
    }

    constructor ()
      ensures Valid() && nodes == {} && aliases == map[]
    {
      nodes, aliases := {}, map[];
    }

    method Register(id: string)
      modifies this`nodes
      ensures nodes == old(nodes) + {id}
    {
      nodes := nodes + {id};
    }

    method Forget(id: string) returns (known: bool)
      modifies this`nodes
      ensures nodes == old(nodes) - {id} && (known <==> id in old(nodes))
    {
      known := id in nodes;
      nodes := nodes - {id};
    }

    /** The node of an alias, if any. */
    method FindAlias(alias: string) returns (id: Option<string>)
      ensures id.Some? ==> id.value in aliases && aliases[id.value] == alias
      ensures id.None? ==> forall i :: i in aliases ==> aliases[i] != alias
    {
      var left := aliases.Keys;
      while left != {}
        invariant left <= aliases.Keys
        invariant forall i :: i in aliases && i !in left ==> aliases[i] != alias
        decreases |left|
      {
        var i :| i in left;
        if aliases[i] == alias { return Some(i); }
        left := left - {i};
      }
      return None;
    }

    method Lookup(name: string) returns (id: string, known: bool)
      requires Valid()
      ensures id == Id(aliases, name)
      ensures known <==> name in nodes || exists i :: i in aliases && aliases[i] == name
    {
      var holder := FindAlias(name);
      if holder.Some? {
        HolderIs(aliases, holder.value);
        return holder.value, true;
      }
      return name, name in nodes;
    }

    /** "" clears the alias. */
    method SetAlias(id: string, alias: string) returns (a: AliasAnswer)
      requires Valid()
      modifies this`aliases
      ensures Valid() && a == AliasAnswerOf(nodes, old(aliases), id, alias)
      ensures aliases == if a.AliasSet? then Renamed(old(aliases), id, alias) else old(aliases)
    {
      hide ValidAlias;
      if id !in nodes && (alias != "" || id !in aliases) { return UnknownNode; }
      if alias == "" {
        aliases := aliases - {id};
        return AliasSet;
      }
      if !ValidAlias(alias) { return InvalidAlias; }
      if alias in nodes && alias != id { return TakenAlias; }
      var holder := FindAlias(alias);
      if holder.Some? && holder.value != id { return TakenAlias; }
      assert Valid() && holder.Some? ==> forall i :: i in aliases && aliases[i] == alias ==> i == id;
      RenamedStaysUnique(nodes, aliases, id, alias);
      aliases := aliases[id := alias];
      return AliasSet;
    }
  }

  /** The promise that no alias is another node's id survives every renaming,
      and survives a registration if and only if nobody else has that id as
      alias. */
  lemma RegisteringCanShadow(nodes: set<string>, reg: Aliases, id: string)
    requires UniqueAliases(reg) && NoneShadowed(nodes, reg)
    ensures NoneShadowed(nodes + {id}, reg) <==> Id(reg, id) == id
  {
    if i :| i in reg && reg[i] == id { HolderIs(reg, i); }
  }
}
