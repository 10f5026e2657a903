/** The managed agent files of pbctl opencode (controller/cmd/pbctl/opencode.go). */
module AgentSync {
  import opened Ordering
  import opened Wrappers
  import opened Text

  const PREFIX: string := ".opencode/agent/"

  /** An agent file to be written: its name and its rendering. */
  datatype Spec = Spec(name: string, content: string)

  /** One path: its file on disk and its hash in the manifest, if any. */
  datatype Entry = Entry(file: Option<string>, hash: Option<string>)

  datatype Verdict = Untouched | Added | Updated | Kept | KeptEdited | Forgotten | Removed | LeftEdited

  /** Which reads, writes and removals work. */
  datatype Disk = Disk(readOk: string -> bool, writeOk: string -> bool, removeOk: string -> bool)

  function Rel(name: string): string { PREFIX + name + ".md" }

  predicate Managed(rel: string) { PREFIX <= rel }

  lemma RelInjective(a: string, b: string)
    requires Rel(a) == Rel(b)
    ensures a == b
  {
    var n := |PREFIX|;
    assert Rel(a)[n..|Rel(a)| - 3] == a && Rel(b)[n..|Rel(b)| - 3] == b;
  }

  /** The rendering wanted at a path. */
  ghost function Want(specs: seq<Spec>, rel: string): Option<string>
  {
    if specs == [] then None
    else if Rel(specs[|specs| - 1].name) == rel then Some(specs[|specs| - 1].content)
    else Want(specs[..|specs| - 1], rel)
  }

  /** Tracked, and changed since it was written. */
  predicate Edited(e: Entry, hash: string -> string)
  {
    e.file.Some? && e.hash.Some? && hash(e.file.value) != e.hash.value
  }

  /** What a sync makes of a path, and what it reports. */
  ghost function Settle(e: Entry, want: Option<string>, managed: bool, hash: string -> string): (Entry, Verdict)
  {
    if want.Some? then
      var written := Entry(want, Some(hash(want.value)));
      if e.file.None? then (written, Added)
      else if Edited(e, hash) then (e, KeptEdited)
      else if e.file == want then (written, Kept)
      else (written, Updated)
    else if !managed || e.hash.None? then (e, Untouched)
    else if e.file.None? then (Entry(None, None), Forgotten)
    else if Edited(e, hash) then (e, LeftEdited)
    else (Entry(None, None), Removed)
  }

  /** Syncing again with the same specs changes nothing and reports no path as
      added, updated or removed. */
  lemma SettleTwice(e: Entry, want: Option<string>, managed: bool, hash: string -> string)
    ensures var (after, verdict) := Settle(e, want, managed, hash);
            var (again, verdict2) := Settle(after, want, managed, hash);
            again == after && verdict2 in {Untouched, Kept, KeptEdited, LeftEdited}
  {
  }

  /** A tracked file that was edited by hand is never overwritten or deleted;
      every other wanted file ends equal to its rendering. */
  lemma SettleRespects(e: Entry, want: Option<string>, managed: bool, hash: string -> string)
    ensures var after := Settle(e, want, managed, hash).0;
            && (Edited(e, hash) ==> after == e)
            && (want.Some? && !Edited(e, hash) ==> after == Entry(want, Some(hash(want.value))))
  {
  }

  /** The hand-edit check needs the manifest: a file of the user's own that was
      there before, under a wanted name, is overwritten. */
  lemma UntrackedIsOverwritten(own: string, content: string, hash: string -> string)
    requires own != content
    ensures Settle(Entry(Some(own), None), Some(content), true, hash) == (Entry(Some(content), Some(hash(content))), Updated)
  {
  }

  datatype Report = Report(added: seq<string>, removed: seq<string>, updated: seq<string>, kept: seq<string>, warnings: seq<string>, ok: bool)

  ghost predicate DistinctNames(specs: seq<Spec>)
  {
    forall i, j :: 0 <= i < |specs| && 0 <= j < |specs| && specs[i].name == specs[j].name ==> i == j
  }

  ghost function Paths(specs: seq<Spec>, i: nat): set<string>
    requires i <= |specs|
  {
    set k | 0 <= k < i :: Rel(specs[k].name)
  }

  lemma {:induction false} WantFinds(specs: seq<Spec>, rel: string)
    ensures Want(specs, rel).None? <==> forall k :: 0 <= k < |specs| ==> Rel(specs[k].name) != rel
    ensures Want(specs, rel).Some? ==> exists k :: 0 <= k < |specs| && Rel(specs[k].name) == rel && Want(specs, rel).value == specs[k].content
  {
    hide Rel;
    if specs != [] { WantFinds(specs[..|specs| - 1], rel); }
  }

  class Project {
    const hash: string -> string
    var files: map<string, string>
    var manifest: map<string, string>

    constructor (hash: string -> string, files: map<string, string>, manifest: map<string, string>)
      ensures this.hash == hash && this.files == files && this.manifest == manifest
    {
      this.hash, this.files, this.manifest := hash, files, manifest;
    }

    /** Writes content at rel and tracks it. */
    method Write(rel: string, content: string)
      modifies this`files, this`manifest
      ensures files == old(files)[rel := content] && manifest == old(manifest)[rel := hash(content)]
    {
      files := files[rel := content];
      manifest := manifest[rel := hash(content)];
    }

    /** One wanted file. */
    method SyncOne(spec: Spec, disk: Disk) returns (v: Verdict, ok: bool)
      modifies this`files, this`manifest
      ensures ok ==> OneSettled(old(files), old(manifest), files, manifest, Rel(spec.name), Some(spec.content), v, hash)
      ensures !ok ==> files == old(files) && manifest == old(manifest)
    {
      hide Rel;
      var rel := Rel(spec.name);
      if rel !in files {
        if !disk.writeOk(rel) { return Added, false; }
        Write(rel, spec.content);
        return Added, true;
      }
      if !disk.readOk(rel) { return Kept, false; }
      if rel in manifest && hash(files[rel]) != manifest[rel] { return KeptEdited, true; }
      if files[rel] == spec.content {
        manifest := manifest[rel := hash(spec.content)];
        return Kept, true;
      }
      if !disk.writeOk(rel) { return Updated, false; }
      Write(rel, spec.content);
      return Updated, true;
    }

    /** One managed file that is no longer wanted. */
    method DropOne(rel: string, disk: Disk) returns (v: Verdict, ok: bool)
      requires rel in manifest && Managed(rel)
      modifies this`files, this`manifest
      ensures ok ==> OneSettled(old(files), old(manifest), files, manifest, rel, None, v, hash)
      ensures !ok ==> files == old(files) && manifest == old(manifest)
      ensures old(manifest.Keys) - {rel} <= manifest.Keys
    {
      if rel !in files {
        manifest := manifest - {rel};
        return Forgotten, true;
      }
      if !disk.readOk(rel) { return LeftEdited, false; }
      if hash(files[rel]) != manifest[rel] { return LeftEdited, true; }
      if !disk.removeOk(rel) { return Removed, false; }
      files, manifest := files - {rel}, manifest - {rel};
      return Removed, true;
    }

    /** The first loop: every wanted file, in the order of the specs. */
    method SyncWanted(specs: seq<Spec>, disk: Disk) returns (report: Report, wanted: set<string>, ghost verdicts: map<string, Verdict>)
      requires DistinctNames(specs)
      modifies this`files, this`manifest
      ensures Progress(old(files), old(manifest), files, manifest, verdicts, specs, hash) && Says(report, verdicts)
      ensures report.ok ==> verdicts.Keys == wanted == Paths(specs, |specs|)
    {
      hide Settle, Want, Rel, Managed, Progress, Says, EntryOf, OneSettled, Paths, Noted;
      ghost var files0, manifest0 := files, manifest;
      verdicts, wanted := map[], {};
      report := Report([], [], [], [], [], true);
      NothingSettled(files, manifest, specs, hash);
      for i := 0 to |specs|
        invariant Progress(files0, manifest0, files, manifest, verdicts, specs, hash) && Says(report, verdicts) && report.ok
        invariant verdicts.Keys == wanted == Paths(specs, i)
      {
        ghost var files1, manifest1, rel := files, manifest, Rel(specs[i].name);
        FreshRel(specs, i);
        RelManaged(specs[i].name);
        var v, ok := SyncOne(specs[i], disk);
        wanted := wanted + {Rel(specs[i].name)};
        if !ok {
          SaysFailed(report, verdicts);
          report := report.(ok := false);
          return;
        }
        ProgressStep(files0, manifest0, files1, manifest1, files, manifest, verdicts, specs, hash, rel, v);
        SaysStep(report, verdicts, rel, v);
        report, verdicts := Noted(report, Rel(specs[i].name), v), verdicts[rel := v];
      }
    }

    /** The second loop: managed files that are no longer wanted. */
    method DropUnwanted(specs: seq<Spec>, disk: Disk, wanted: set<string>, report0: Report, ghost verdicts0: map<string, Verdict>,
                        ghost files0: map<string, string>, ghost manifest0: map<string, string>)
      returns (report: Report, ghost verdicts: map<string, Verdict>)
      requires Progress(files0, manifest0, files, manifest, verdicts0, specs, hash) && Says(report0, verdicts0) && report0.ok
      requires verdicts0.Keys == wanted == Paths(specs, |specs|)
      modifies this`files, this`manifest
      ensures Progress(files0, manifest0, files, manifest, verdicts, specs, hash) && Says(report, verdicts)
      ensures report.ok ==> wanted <= verdicts.Keys && forall r :: Managed(r) && r in old(manifest) ==> r in verdicts
    {
      hide Settle, Want, Rel, Managed, Progress, Says, EntryOf, OneSettled, Paths, Noted;
      report, verdicts := report0, verdicts0;
      var left := manifest.Keys;
      ghost var all := manifest.Keys;
      while left != {}
        invariant Progress(files0, manifest0, files, manifest, verdicts, specs, hash) && Says(report, verdicts) && report.ok
        invariant left <= manifest.Keys && left <= all && wanted <= verdicts.Keys <= wanted + (all - left)
        invariant forall r :: Managed(r) && r in all && r !in left ==> r in verdicts
        decreases |left|
      {
        var rel :| rel in left;
        left := left - {rel};
        if Managed(rel) && rel !in wanted {
          ghost var files1, manifest1 := files, manifest;
          NotWanted(specs, rel);
          var v, ok := DropOne(rel, disk);
          if !ok {
            SaysFailed(report, verdicts);
            report := report.(ok := false);
            return;
          }
          ProgressStep(files0, manifest0, files1, manifest1, files, manifest, verdicts, specs, hash, rel, v);
          SaysStep(report, verdicts, rel, v);
          report, verdicts := Noted(report, rel, v), verdicts[rel := v];
        }
      }
    }

    /** syncAgentFiles.  Unless a read or a write fails, every path ends as Settle
        says and is reported as it says; a failed sync has settled some paths and
        left the others alone. */
    method Sync(specs: seq<Spec>, disk: Disk) returns (report: Report, ghost verdicts: map<string, Verdict>)
      requires DistinctNames(specs)
      modifies this`files, this`manifest
      ensures Progress(old(files), old(manifest), files, manifest, verdicts, specs, hash) && Says(report, verdicts)
      ensures report.ok ==> Complete(old(files), old(manifest), files, manifest, verdicts, specs, hash)
    {
      hide Settle, Want, Rel, Managed, Progress, Says, EntryOf, Complete, Paths;
      ghost var files0, manifest0 := files, manifest;
      var wanted;
      report, wanted, verdicts := SyncWanted(specs, disk);
      if !report.ok { return; }
      ghost var verdicts1, manifest1 := verdicts, manifest;
      UnwantedTracked(files0, manifest0, files, manifest, verdicts, specs, hash);
      report, verdicts := DropUnwanted(specs, disk, wanted, report, verdicts, files0, manifest0);
      if report.ok { AllSettled(files0, manifest0, files, manifest, verdicts1.Keys, verdicts, specs, hash); }
      SortLists(report, verdicts);
      report := Report(Sort(ByName(), report.added), Sort(ByName(), report.removed), Sort(ByName(), report.updated),
                       Sort(ByName(), report.kept), report.warnings, report.ok);
    }
  }

  ghost function EntryOf(files: map<string, string>, manifest: map<string, string>, rel: string): Entry
  {
    Entry(if rel in files then Some(files[rel]) else None, if rel in manifest then Some(manifest[rel]) else None)
  }

  /** One managed path has been settled, the others are as before. */
  ghost predicate OneSettled(files: map<string, string>, manifest: map<string, string>, files': map<string, string>, manifest': map<string, string>,
                             rel: string, want: Option<string>, v: Verdict, hash: string -> string)
  {
    && (forall r :: r != rel ==> EntryOf(files', manifest', r) == EntryOf(files, manifest, r))
    && (EntryOf(files', manifest', rel), v) == Settle(EntryOf(files, manifest, rel), want, true, hash)
  }

  /** Exactly the paths with a verdict have been settled. */
  ghost predicate Progress(files0: map<string, string>, manifest0: map<string, string>, files: map<string, string>, manifest: map<string, string>,
                           verdicts: map<string, Verdict>, specs: seq<Spec>, hash: string -> string)
  {
    forall r ::
      var e0, e := EntryOf(files0, manifest0, r), EntryOf(files, manifest, r);
      if r in verdicts then (e, verdicts[r]) == Settle(e0, Want(specs, r), Managed(r), hash) else e == e0
  }

  /** Every path is as Settle says, and those without a verdict are untouched. */
  ghost predicate Complete(files0: map<string, string>, manifest0: map<string, string>, files: map<string, string>, manifest: map<string, string>,
                           verdicts: map<string, Verdict>, specs: seq<Spec>, hash: string -> string)
  {
    forall r ::
      (EntryOf(files, manifest, r), if r in verdicts then verdicts[r] else Untouched)
      == Settle(EntryOf(files0, manifest0, r), Want(specs, r), Managed(r), hash)
  }

  ghost predicate Says(report: Report, verdicts: map<string, Verdict>)
  {
    forall r ::
      var v := if r in verdicts then verdicts[r] else Untouched;
      && (r in report.added <==> v == Added) && (r in report.removed <==> v == Removed) && (r in report.updated <==> v == Updated)
      && (r in report.kept <==> v == Kept || v == KeptEdited) && (r in report.warnings <==> v == KeptEdited || v == LeftEdited)
  }

  function Noted(r: Report, rel: string, v: Verdict): Report
  {
    match v
    case Added => r.(added := r.added + [rel])
    case Updated => r.(updated := r.updated + [rel])
    case Kept => r.(kept := r.kept + [rel])
    case KeptEdited => r.(kept := r.kept + [rel], warnings := r.warnings + [rel])
    case Removed => r.(removed := r.removed + [rel])
    case LeftEdited => r.(warnings := r.warnings + [rel])
    case _ => r
  }

  lemma RelManaged(name: string)
    ensures Managed(Rel(name))
  {
  }

  lemma NothingSettled(files: map<string, string>, manifest: map<string, string>, specs: seq<Spec>, hash: string -> string)
    ensures Progress(files, manifest, files, manifest, map[], specs, hash) && Says(Report([], [], [], [], [], true), map[]) && Paths(specs, 0) == {}
  {
  }

  lemma FreshRel(specs: seq<Spec>, i: nat)
    requires DistinctNames(specs) && i < |specs|
    ensures Rel(specs[i].name) !in Paths(specs, i) && Paths(specs, i + 1) == Paths(specs, i) + {Rel(specs[i].name)}
    ensures Want(specs, Rel(specs[i].name)) == Some(specs[i].content)
  {
    hide Rel, Want;
    WantFinds(specs, Rel(specs[i].name));
    forall k | 0 <= k < |specs| && Rel(specs[k].name) == Rel(specs[i].name) ensures k == i { RelInjective(specs[k].name, specs[i].name); }
  }

  lemma NotWanted(specs: seq<Spec>, rel: string)
    requires rel !in Paths(specs, |specs|)
    ensures Want(specs, rel) == None
  {
    WantFinds(specs, rel);
    hide Rel, Want;
    forall k | 0 <= k < |specs| ensures Rel(specs[k].name) != rel {
      assert Rel(specs[k].name) in Paths(specs, |specs|);
    }
  }

  lemma ProgressStep(files0: map<string, string>, manifest0: map<string, string>, files: map<string, string>, manifest: map<string, string>,
                     files': map<string, string>, manifest': map<string, string>, verdicts: map<string, Verdict>, specs: seq<Spec>, hash: string -> string,
                     rel: string, v: Verdict)
    requires Progress(files0, manifest0, files, manifest, verdicts, specs, hash) && rel !in verdicts
    requires OneSettled(files, manifest, files', manifest', rel, Want(specs, rel), v, hash) && Managed(rel)
    ensures Progress(files0, manifest0, files', manifest', verdicts[rel := v], specs, hash)
  {
    hide EntryOf, Settle, Want;
    assert EntryOf(files, manifest, rel) == EntryOf(files0, manifest0, rel);
  }

  lemma SaysFailed(report: Report, verdicts: map<string, Verdict>)
    requires Says(report, verdicts)
    ensures Says(report.(ok := false), verdicts)
  {
  }

  lemma SaysStep(report: Report, verdicts: map<string, Verdict>, rel: string, v: Verdict)
    requires Says(report, verdicts) && rel !in verdicts
    ensures Says(Noted(report, rel, v), verdicts[rel := v]) && Noted(report, rel, v).ok == report.ok
  {
  }

  lemma SortLists(r: Report, verdicts: map<string, Verdict>)
    requires Says(r, verdicts)
    ensures Says(Report(Sort(ByName(), r.added), Sort(ByName(), r.removed), Sort(ByName(), r.updated), Sort(ByName(), r.kept), r.warnings, r.ok), verdicts)
  {
    SameElements(r.added, Sort(ByName(), r.added));
    SameElements(r.removed, Sort(ByName(), r.removed));
    SameElements(r.updated, Sort(ByName(), r.updated));
    SameElements(r.kept, Sort(ByName(), r.kept));
  }

  /** An unwanted path is tracked after the first loop as it was before. */
  lemma UnwantedTracked(files0: map<string, string>, manifest0: map<string, string>, files: map<string, string>, manifest: map<string, string>,
                        verdicts: map<string, Verdict>, specs: seq<Spec>, hash: string -> string)
    requires Progress(files0, manifest0, files, manifest, verdicts, specs, hash)
    ensures forall r :: r !in verdicts ==> (r in manifest <==> r in manifest0)
  {
    forall r | r !in verdicts ensures r in manifest <==> r in manifest0 {
      assert EntryOf(files, manifest, r) == EntryOf(files0, manifest0, r);
    }
  }

  lemma AllSettled(files0: map<string, string>, manifest0: map<string, string>, files: map<string, string>, manifest: map<string, string>,
                   wanted: set<string>, verdicts: map<string, Verdict>, specs: seq<Spec>, hash: string -> string)
    requires Progress(files0, manifest0, files, manifest, verdicts, specs, hash)
    requires wanted == Paths(specs, |specs|) && wanted <= verdicts.Keys
    requires forall r :: Managed(r) && r in manifest0 && r !in wanted ==> r in verdicts
    ensures Complete(files0, manifest0, files, manifest, verdicts, specs, hash)
  {
    forall r | r !in verdicts
      ensures (EntryOf(files, manifest, r), Untouched) == Settle(EntryOf(files0, manifest0, r), Want(specs, r), Managed(r), hash)
    {
      NotWanted(specs, r);
    }
  }

  /** Idempotence: when a sync succeeded, syncing again adds, updates and removes
      nothing and leaves every file and the manifest as they are. */
  lemma SyncTwice(files0: map<string, string>, manifest0: map<string, string>, files1: map<string, string>, manifest1: map<string, string>,
                  files2: map<string, string>, manifest2: map<string, string>, verdicts1: map<string, Verdict>, verdicts2: map<string, Verdict>,
                  report2: Report, specs: seq<Spec>, hash: string -> string)
    requires Complete(files0, manifest0, files1, manifest1, verdicts1, specs, hash)
    requires Progress(files1, manifest1, files2, manifest2, verdicts2, specs, hash) && Says(report2, verdicts2)
    ensures report2.added == [] && report2.updated == [] && report2.removed == []
    ensures files2 == files1 && manifest2 == manifest1
  {
    forall r ensures EntryOf(files2, manifest2, r) == EntryOf(files1, manifest1, r)
                     && (r in verdicts2 ==> verdicts2[r] in {Untouched, Kept, KeptEdited, LeftEdited}) {
      SettleTwice(EntryOf(files0, manifest0, r), Want(specs, r), Managed(r), hash);
      hide Settle, EntryOf, Want;
    }
    SameEntries(files2, manifest2, files1, manifest1);
    hide EntryOf, Progress, Complete;
    NoMember(report2.added);
    NoMember(report2.updated);
    NoMember(report2.removed);
  }

  lemma NoMember(s: seq<string>)
    requires forall x :: x !in s
    ensures s == []
  {
    var x := if |s| > 0 then s[0] else "";
    assert |s| > 0 ==> x in s;
  }

  lemma SameEntries(f: map<string, string>, m: map<string, string>, f': map<string, string>, m': map<string, string>)
    requires forall r :: EntryOf(f, m, r) == EntryOf(f', m', r)
    ensures f == f' && m == m'
  {
    forall r ensures (r in f <==> r in f') && (r in f ==> f[r] == f'[r]) && (r in m <==> r in m') && (r in m ==> m[r] == m'[r]) {
      assert EntryOf(f, m, r) == EntryOf(f', m', r);
    }
  }

  /** Whether or not a sync failed midway, it left hand-edited tracked files
      alone; one that succeeded rendered every other wanted file. */
  lemma SyncRespectsEdits(files0: map<string, string>, manifest0: map<string, string>, files: map<string, string>, manifest: map<string, string>,
                          verdicts: map<string, Verdict>, specs: seq<Spec>, hash: string -> string, i: nat)
    requires Progress(files0, manifest0, files, manifest, verdicts, specs, hash) && DistinctNames(specs) && i < |specs|
    ensures forall r :: Edited(EntryOf(files0, manifest0, r), hash) ==> EntryOf(files, manifest, r) == EntryOf(files0, manifest0, r)
    ensures var rel := Rel(specs[i].name);
            Complete(files0, manifest0, files, manifest, verdicts, specs, hash) && !Edited(EntryOf(files0, manifest0, rel), hash)
            ==> rel in files && files[rel] == specs[i].content
  {
    FreshRel(specs, i);
    forall r | Edited(EntryOf(files0, manifest0, r), hash) ensures EntryOf(files, manifest, r) == EntryOf(files0, manifest0, r) {
      SettleRespects(EntryOf(files0, manifest0, r), Want(specs, r), Managed(r), hash);
      hide Settle, EntryOf, Want, Edited;
    }
    var rel := Rel(specs[i].name);
    SettleRespects(EntryOf(files0, manifest0, rel), Want(specs, rel), Managed(rel), hash);
    hide Settle, Want, Edited, Rel;
  }

  /** After a sync that succeeded, a managed file that is no longer wanted is gone
      from disk and manifest, unless it was edited by hand; untracked files and
      files elsewhere are as before. */
  lemma UnwantedAreRemoved(files0: map<string, string>, manifest0: map<string, string>, files: map<string, string>, manifest: map<string, string>,
                           verdicts: map<string, Verdict>, specs: seq<Spec>, hash: string -> string, rel: string)
    requires Complete(files0, manifest0, files, manifest, verdicts, specs, hash) && forall k :: 0 <= k < |specs| ==> Rel(specs[k].name) != rel
    ensures rel !in manifest0 || !(PREFIX <= rel) ==> EntryOf(files, manifest, rel) == EntryOf(files0, manifest0, rel)
    ensures rel in manifest0 && PREFIX <= rel ==>
              if rel in files0 && hash(files0[rel]) != manifest0[rel] then EntryOf(files, manifest, rel) == EntryOf(files0, manifest0, rel)
              else rel !in files && rel !in manifest
  {
    WantFinds(specs, rel);
    hide Rel, Want;
    assert EntryOf(files, manifest, rel) == Settle(EntryOf(files0, manifest0, rel), None, Managed(rel), hash).0;
  }

  // ----- the agents the tool writes ------------------------------------------------------------

  /** What an agent is for: its description and body. */
  datatype Role = Fast | Summarize | Review | CodeReview | CodeTests | CodeDocs | Phone(device: string, served: string)

  datatype Agent = Agent(name: string, role: Role, model: string, readTools: bool)

  /** A phone with an alias, as the controller lists it. */
  datatype Aliased = Aliased(alias: string, device: string, served: string)

  function PhoneAgent(provider: string, n: Aliased, readTools: bool): Agent
  {
    var device := if n.device == "" then "unknown device" else n.device;
    var served := if n.served == "" then "no model" else n.served;
    Agent("phone-" + n.alias, Phone(device, served), provider + "/node/" + n.alias, readTools)
  }

  function PoolAgents(provider: string, readTools: bool): seq<Agent>
  {
    var model := provider + "/pool/fast";
    [Agent("borg-fast", Fast, model, readTools), Agent("borg-summarize", Summarize, model, readTools), Agent("borg-review", Review, model, readTools)]
  }

  function CodeAgents(provider: string, readTools: bool): seq<Agent>
  {
    var model := provider + "/pool/code";
    [Agent("code-review", CodeReview, model, readTools), Agent("code-tests", CodeTests, model, readTools), Agent("code-docs", CodeDocs, model, readTools)]
  }

  method ManagedAgents(provider: string, readTools: bool, codePool: bool, aliased: seq<Aliased>) returns (agents: seq<Agent>)
    ensures agents == FixedAgents(provider, readTools, codePool) + PhoneAgents(provider, readTools, aliased)
  {
    agents := PoolAgents(provider, readTools);
    if codePool { agents := agents + CodeAgents(provider, readTools); }
    for i := 0 to |aliased|
      invariant agents == FixedAgents(provider, readTools, codePool) + PhoneAgents(provider, readTools, aliased[..i])
    {
      agents := agents + [PhoneAgent(provider, aliased[i], readTools)];
    }
    assert aliased[..|aliased|] == aliased;
  }

  function FixedAgents(provider: string, readTools: bool, codePool: bool): seq<Agent>
  {
    PoolAgents(provider, readTools) + if codePool then CodeAgents(provider, readTools) else []
  }

  function PhoneAgents(provider: string, readTools: bool, aliased: seq<Aliased>): seq<Agent>
  {
    seq(|aliased|, i requires 0 <= i < |aliased| => PhoneAgent(provider, aliased[i], readTools))
  }

  function Rendered(agents: seq<Agent>, render: Agent -> string): seq<Spec>
  {
    seq(|agents|, i requires 0 <= i < |agents| => Spec(agents[i].name, render(agents[i])))
  }

  /** targetForAgentName: the target of an agent, from its name alone. */
  function TargetOf(name: string): string
  {
    if HasPrefix(name, "phone-") then "node/" + name[6..]
    else if HasPrefix(name, "code-") then "pool/code"
    else "pool/fast"
  }

  ghost predicate DistinctAliases(aliased: seq<Aliased>)
  {
    forall i, j :: 0 <= i < |aliased| && 0 <= j < |aliased| && aliased[i].alias == aliased[j].alias ==> i == j
  }

  lemma FixedNamesDiffer(provider: string, readTools: bool, codePool: bool)
    ensures var agents := FixedAgents(provider, readTools, codePool);
            && (forall i, j :: 0 <= i < |agents| && 0 <= j < |agents| && agents[i].name == agents[j].name ==> i == j)
            && (forall i :: 0 <= i < |agents| ==> !HasPrefix(agents[i].name, "phone-"))
  {
    var agents := FixedAgents(provider, readTools, codePool);
    forall i, j | 0 <= i < |agents| && 0 <= j < |agents| && agents[i].name == agents[j].name ensures i == j {
      assert |agents[i].name| == |agents[j].name| && agents[i].name[0] == agents[j].name[0] && agents[i].name[5] == agents[j].name[5];
      assert agents[i].name[6] == agents[j].name[6];
    }
    forall i | 0 <= i < |agents| ensures !HasPrefix(agents[i].name, "phone-") {
      assert agents[i].name[0] != "phone-"[0];
    }
  }

  lemma FixedTargets(provider: string, readTools: bool, codePool: bool, k: nat)
    requires k < |FixedAgents(provider, readTools, codePool)|
    ensures var agent := FixedAgents(provider, readTools, codePool)[k]; agent.model == provider + "/" + TargetOf(agent.name)
  {
    FixedNamesDiffer(provider, readTools, codePool);
    var agent := FixedAgents(provider, readTools, codePool)[k];
    assert provider + "/pool/fast" == provider + "/" + "pool/fast" && provider + "/pool/code" == provider + "/" + "pool/code";
    if k < 3 {
      assert agent.name[0] != "code-"[0];
    } else {
      assert "code-" <= agent.name;
    }
  }

  /** Agents of phones with distinct aliases have distinct files, none of them a
      pool agent's; with equal aliases they have not. */
  lemma ManagedNamesDiffer(provider: string, readTools: bool, codePool: bool, aliased: seq<Aliased>, render: Agent -> string)
    ensures DistinctNames(Rendered(FixedAgents(provider, readTools, codePool) + PhoneAgents(provider, readTools, aliased), render))
            <==> DistinctAliases(aliased)
  {
    FixedNamesDiffer(provider, readTools, codePool);
    var fixed, phones := FixedAgents(provider, readTools, codePool), PhoneAgents(provider, readTools, aliased);
    var specs := Rendered(fixed + phones, render);
    hide FixedAgents;
    forall i | 0 <= i < |aliased| ensures specs[|fixed| + i].name == "phone-" + aliased[i].alias && aliased[i].alias == specs[|fixed| + i].name[6..] { }
    if DistinctNames(specs) {
      forall i, j | 0 <= i < |aliased| && 0 <= j < |aliased| && aliased[i].alias == aliased[j].alias ensures i == j {
        assert specs[|fixed| + i].name == specs[|fixed| + j].name;
      }
    }
    if DistinctAliases(aliased) {
      forall i, j | 0 <= i < |specs| && 0 <= j < |specs| && specs[i].name == specs[j].name ensures i == j {
        assert i >= |fixed| ==> HasPrefix(specs[i].name, "phone-");
        assert j >= |fixed| ==> HasPrefix(specs[j].name, "phone-");
      }
    }
  }

  /** The name of a managed agent's file gives its target back. */
  lemma NameGivesTarget(provider: string, readTools: bool, codePool: bool, aliased: seq<Aliased>, k: nat)
    requires k < |FixedAgents(provider, readTools, codePool) + PhoneAgents(provider, readTools, aliased)|
    ensures var agent := (FixedAgents(provider, readTools, codePool) + PhoneAgents(provider, readTools, aliased))[k];
            agent.model == provider + "/" + TargetOf(agent.name)
  {
    var fixed := FixedAgents(provider, readTools, codePool);
    if k >= |fixed| {
      var alias := aliased[k - |fixed|].alias;
      assert ("phone-" + alias)[6..] == alias;
      assert provider + "/node/" + alias == provider + "/" + ("node/" + alias);
    } else {
      FixedTargets(provider, readTools, codePool, k);
    }
  }

  /** What pbctl syncs: the managed agents of the phones the controller lists. */
  method SyncManaged(project: Project, provider: string, readTools: bool, codePool: bool, aliased: seq<Aliased>, render: Agent -> string, disk: Disk)
    returns (report: Report, ghost verdicts: map<string, Verdict>, ghost specs: seq<Spec>)
    requires DistinctAliases(aliased)
    modifies project`files, project`manifest
    ensures specs == Rendered(FixedAgents(provider, readTools, codePool) + PhoneAgents(provider, readTools, aliased), render)
    ensures Progress(old(project.files), old(project.manifest), project.files, project.manifest, verdicts, specs, project.hash)
    ensures Says(report, verdicts)
    ensures report.ok ==> Complete(old(project.files), old(project.manifest), project.files, project.manifest, verdicts, specs, project.hash)
  {
    hide FixedAgents, PhoneAgents, Progress, Says, Complete, DistinctNames, DistinctAliases;
    var agents := ManagedAgents(provider, readTools, codePool, aliased);
    ManagedNamesDiffer(provider, readTools, codePool, aliased, render);
    specs := Rendered(agents, render);
    report, verdicts := project.Sync(Rendered(agents, render), disk);
  }
}
