/** Making room for a model download (node-agent/download.go). */
module ModelCache {
  import opened Ordering

  /** A model file: ModelsDir/<id>.gguf, or a file elsewhere. */
  datatype Path = Cached(id: string) | Other(name: string)

  /** A SHA-256 in upper-case hexadecimal. */
  type Hash = h: string | |h| == 64 witness seq(64, _ => '0')

  /** A file; its content is told apart by its hash. */
  datatype File = File(size: nat, mtime: int, sha: Hash)

  type Files = map<Path, File>

  datatype Model = Model(id: string, mtime: int, size: nat)

  /** How the file system behaves during one eviction. */
  datatype Disk = Disk(readable: bool, infoOk: string -> bool, removeOk: string -> bool)

  function OlderFirst(): (Model, Model) -> bool { (a: Model, b: Model) => a.mtime <= b.mtime }

  function Total(ms: seq<Model>): nat { if ms == [] then 0 else Total(ms[..|ms| - 1]) + ms[|ms| - 1].size }

  /** A model file that may be evicted: neither served nor about to be written. */
  predicate Evictable(files: Files, disk: Disk, keep: Path, dest: Path, id: string)
  {
    Cached(id) in files && Cached(id) != keep && Cached(id) != dest && disk.infoOk(id)
  }

  function ModelOf(files: Files, id: string): Model
    requires Cached(id) in files
  {
    Model(id, files[Cached(id)].mtime, files[Cached(id)].size)
  }

  function Removed(files: Files, gone: seq<Model>): Files
  {
    files - (set m | m in gone :: Cached(m.id))
  }

  /** Without the last model removed there was too little room. */
  ghost predicate NoneTooMany(gone: seq<Model>, free: int, needed: int)
  {
    gone != [] ==> free + Total(gone[..|gone| - 1]) < needed
  }

  ghost predicate MayGo(gone: seq<Model>, files: Files, disk: Disk, keep: Path, dest: Path)
  {
    forall m :: m in gone ==> Evictable(files, disk, keep, dest, m.id) && disk.removeOk(m.id) && m == ModelOf(files, m.id)
  }

  /** Every removable model older than a removed one is removed too. */
  ghost predicate OldestGo(gone: seq<Model>, files: Files, disk: Disk, keep: Path, dest: Path)
  {
    forall m, id :: m in gone && Evictable(files, disk, keep, dest, id) && disk.removeOk(id) && files[Cached(id)].mtime < m.mtime
      ==> ModelOf(files, id) in gone
  }

  /** What an eviction may have done: gone are evictable files, each once,
      oldest first, and no more than were needed. */
  ghost predicate EvictedWell(files: Files, disk: Disk, keep: Path, dest: Path, free: int, needed: int, gone: seq<Model>)
  {
    && MayGo(gone, files, disk, keep, dest) && OldestGo(gone, files, disk, keep, dest)
    && Sorted(OlderFirst(), gone) && Distinct(gone) && NoneTooMany(gone, free, needed)
  }

  /** The evictable models of the directory, oldest first. */
  method ListModels(files: Files, disk: Disk, keep: Path, dest: Path) returns (models: seq<Model>)
    ensures Lists(models, files, disk, keep, dest)
  {
    models := [];
    var left := files.Keys;
    while left != {}
      invariant left <= files.Keys && Distinct(models)
      invariant forall m :: m in models <==> Evictable(files, disk, keep, dest, m.id) && m == ModelOf(files, m.id) && Cached(m.id) !in left
      decreases |left|
    {
      var p :| p in left;
      left := left - {p};
      if p.Cached? && p != keep && p != dest && disk.infoOk(p.id) {
        assert Distinct(models + [ModelOf(files, p.id)]);
        models := models + [ModelOf(files, p.id)];
      }
    }
    ghost var listed := models;
    models := Sort(OlderFirst(), models);
    SortSorts(OlderFirst(), listed);
    SameElements(listed, models);
    DistinctMultiset(listed);
    DistinctMultiset(models);
  }

  function CanRemove(disk: Disk): Model -> bool { (m: Model) => disk.removeOk(m.id) }

  lemma SnocKeeps<T(!new)>(le: (T, T) -> bool, t: seq<T>, last: T)
    requires Sorted(le, t) && Distinct(t) && forall i :: 0 <= i < |t| ==> le(t[i], last) && t[i] != last
    ensures Sorted(le, t + [last]) && Distinct(t + [last])
  {
  }

  lemma PrefixKeeps<T(!new)>(le: (T, T) -> bool, s: seq<T>, i: nat)
    requires Sorted(le, s) && Distinct(s) && i <= |s|
    ensures Sorted(le, s[..i]) && Distinct(s[..i])
    ensures i < |s| ==> forall k :: 0 <= k < i ==> le(s[k], s[i]) && s[k] != s[i]
  {
    var done := s[..i];
    forall x, y | 0 <= x < |done| && 0 <= y < |done| && done[x] == done[y] ensures x == y { assert s[x] == s[y]; }
  }

  lemma {:induction false} FilterKeeps<T(!new)>(le: (T, T) -> bool, f: T -> bool, s: seq<T>)
    requires Sorted(le, s) && Distinct(s)
    ensures Sorted(le, Filter(f, s)) && Distinct(Filter(f, s))
  {
    hide Filter, Sorted, Distinct;
    if s == [] {
      NoneKept(le, f);
    } else {
      var i := |s| - 1;
      PrefixKeeps(le, s, i);
      FilterKeeps(le, f, s[..i]);
      assert s == s[..i] + [s[i]];
      FilterSnoc(f, s[..i], s[i]);
      var t := Filter(f, s[..i]);
      forall k | 0 <= k < |t| ensures le(t[k], s[i]) && t[k] != s[i] {
        assert t[k] in s[..i];
        var x :| 0 <= x < i && s[x] == t[k];
      }
      SnocKeeps(le, t, s[i]);
      assert t + [] == t;
    }
  }

  lemma NoneKept<T(!new)>(le: (T, T) -> bool, f: T -> bool)
    ensures Sorted(le, Filter(f, [])) && Distinct(Filter(f, []))
  {
  }

  /** models is the directory's evictable files, oldest first. */
  ghost predicate Lists(models: seq<Model>, files: Files, disk: Disk, keep: Path, dest: Path)
  {
    && (forall m :: m in models <==> Evictable(files, disk, keep, dest, m.id) && m == ModelOf(files, m.id))
    && Sorted(OlderFirst(), models) && Distinct(models)
  }

  lemma ListKeeps(models: seq<Model>, files: Files, disk: Disk, keep: Path, dest: Path, i: nat)
    requires Lists(models, files, disk, keep, dest) && i <= |models|
    ensures var gone := Filter(CanRemove(disk), models[..i]);
            Sorted(OlderFirst(), gone) && Distinct(gone) && MayGo(gone, files, disk, keep, dest)
  {
    PrefixKeeps(OlderFirst(), models, i);
    FilterKeeps(OlderFirst(), CanRemove(disk), models[..i]);
    hide Filter, Evictable, Sorted, Distinct;
  }

  lemma OldestGone(models: seq<Model>, files: Files, disk: Disk, keep: Path, dest: Path, i: nat)
    requires Lists(models, files, disk, keep, dest) && i <= |models|
    ensures OldestGo(Filter(CanRemove(disk), models[..i]), files, disk, keep, dest)
  {
    hide Filter, Sorted, Distinct, Lists;
    var gone := Filter(CanRemove(disk), models[..i]);
    forall m, id | m in gone && Evictable(files, disk, keep, dest, id) && disk.removeOk(id) && files[Cached(id)].mtime < m.mtime
      ensures ModelOf(files, id) in gone
    {
      OlderIsGone(files, disk, keep, dest, models, i, m, id);
    }
  }

  lemma OlderIsGone(files: Files, disk: Disk, keep: Path, dest: Path, models: seq<Model>, i: nat, m: Model, id: string)
    requires Lists(models, files, disk, keep, dest) && i <= |models| && m in models[..i]
    requires Evictable(files, disk, keep, dest, id) && disk.removeOk(id) && files[Cached(id)].mtime < m.mtime
    ensures ModelOf(files, id) in Filter(CanRemove(disk), models[..i])
  {
    hide Filter, Sorted, Distinct;
    InFront(models, i, ModelOf(files, id), m);
  }

  /** In a list sorted by age, what is older than an element of a prefix is in
      the prefix. */
  lemma InFront(models: seq<Model>, i: nat, older: Model, m: Model)
    requires Sorted(OlderFirst(), models) && i <= |models| && older in models && m in models[..i] && older.mtime < m.mtime
    ensures older in models[..i]
  {
    var x :| 0 <= x < |models| && models[x] == older;
    var y :| 0 <= y < i && models[y] == m;
    assert x < i;
    assert models[..i][x] == older;
  }

  lemma TotalSnoc(ms: seq<Model>, m: Model, free: int, needed: int)
    ensures Total(ms + [m]) == Total(ms) + m.size
    ensures free + Total(ms) < needed ==> NoneTooMany(ms + [m], free, needed)
  {
    assert (ms + [m])[..|ms|] == ms;
  }

  lemma RemovedSnoc(files: Files, gone: seq<Model>, m: Model)
    ensures Removed(files, gone + [m]) == Removed(files, gone) - {Cached(m.id)}
  {
    assert (set x | x in gone + [m] :: Cached(x.id)) == (set x | x in gone :: Cached(x.id)) + {Cached(m.id)};
  }

  /** Removes from the front of models until enough is free. */
  method RemoveOldest(files: Files, disk: Disk, models: seq<Model>, free0: int, needed: int) returns (left: Files, free: int, ghost i: nat)
    ensures i <= |models| && (free < needed ==> i == |models|)
    ensures var gone := Filter(CanRemove(disk), models[..i]);
            && left == Removed(files, gone) && free == free0 + Total(gone)
            && NoneTooMany(gone, free0, needed)
  {
    left, free := files, free0;
    ghost var gone: seq<Model> := [];
    var k := 0;
    while k < |models| && free < needed
      invariant k <= |models| && left == Removed(files, gone) && free == free0 + Total(gone)
      invariant gone == Filter(CanRemove(disk), models[..k])
      invariant NoneTooMany(gone, free0, needed)
    {
      hide Removed, Filter, Total, NoneTooMany;
      var m := models[k];
      FilterStep(CanRemove(disk), models, k);
      if disk.removeOk(m.id) {
        RemovedSnoc(files, gone, m);
        TotalSnoc(gone, m, free0, needed);
        left := left - {Cached(m.id)};
        free := free + m.size;
        gone := gone + [m];
      }
      k := k + 1;
    }
    i := k;
  }

  /** evictLRU: removes the least recently used models until needed bytes are
      free; on failure nothing removable is left. */
  method EvictLRU(files: Files, disk: Disk, keep: Path, dest: Path, free0: int, needed: int) returns (left: Files, ok: bool, ghost gone: seq<Model>)
    ensures left == Removed(files, gone) && EvictedWell(files, disk, keep, dest, free0, needed, gone)
    ensures ok <==> free0 >= needed || (disk.readable && free0 + Total(gone) >= needed)
    ensures !ok && disk.readable ==> forall id :: Evictable(files, disk, keep, dest, id) && disk.removeOk(id) ==> ModelOf(files, id) in gone
    ensures gone != [] ==> free0 < needed && disk.readable
  {
    left, gone := files, [];
    if free0 >= needed { return left, true, gone; }
    if !disk.readable { return left, false, gone; }
    hide Filter, Evictable, MayGo, OldestGo, NoneTooMany, Total, Removed, Sorted, Distinct;
    var models := ListModels(files, disk, keep, dest);
    var free;
    ghost var i;
    left, free, i := RemoveOldest(files, disk, models, free0, needed);
    gone := Filter(CanRemove(disk), models[..i]);
    ListKeeps(models, files, disk, keep, dest, i);
    OldestGone(models, files, disk, keep, dest, i);
    ok := free >= needed;
    if !ok { assert models[..i] == models; }
  }

  /** Neither the served model's file nor the destination is ever removed. */
  lemma KeptFilesStay(files: Files, disk: Disk, keep: Path, dest: Path, free: int, needed: int, gone: seq<Model>, p: Path)
    requires EvictedWell(files, disk, keep, dest, free, needed, gone)
    requires p in files && (p == dest || p == keep || p.Other?)
    ensures p in Removed(files, gone) && Removed(files, gone)[p] == files[p]
  {
  }
}
