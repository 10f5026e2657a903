/** The agent's model switching (node-agent/manager.go). */
module NodeManager {
  import opened Backoff
  import opened Ordering
  import opened ModelCache
  import opened MemPlan
  import opened Text
  import opened Wrappers

  const MIN_BACKOFF: int := 30
  const MAX_BACKOFF: int := 600

  /** What a server process runs. */
  datatype Runs = Llama(model: Path, ctx: int, slots: int, kv: string) | RPCServer

  /** A started server and the content it loaded. */
  datatype Server = Server(id: nat, runs: Runs, content: Option<Hash>)

  function LoadedFrom(runs: Runs, files: Files): Option<Hash>
  {
    if runs.Llama? && runs.model in files then Some(files[runs.model].sha) else None
  }

  /** proto.DesiredRuntime; rpc is Mode "rpc". */
  datatype Desired = Desired(modelId: string, url: string, sha256: string, sizeBytes: int, residentBytes: int,
                             ctxSize: int, slots: int, kvType: string, shape: Shape, rpc: bool)

  /** What SetDesired queues. */
  datatype Request = Wanted(desired: Desired) | Release

  datatype PreRPC = PreRPC(runs: Runs, current: string, residentBytes: int, lastApplied: Option<Desired>)

  datatype Error = NoError | SwitchFailed(modelId: string) | NoRPCServer

  /** What a download fetched. */
  datatype Got = Got(size: nat, sha: Hash)

  /** How the rest of the phone behaves during one reconcile: whether the file
      on disk can be hashed, the free storage, the download (or none, if it
      broke off), whether the file can be examined, the memory budget when
      sizing, the one on failure, and whether the new server becomes healthy. */
  datatype World = World(now: int, retryBudget: int, readable: bool, free: Option<int>, disk: Disk, download: Option<Got>,
                         statOk: bool, budget: int, failBudget: int, healthy: bool)

  datatype Outcome = AlreadyApplied | BackingOff | NoRoom | DownloadFailed | StatFailed | KeptRunning | TooBig | LoadFailed | Switched

  predicate Fails(o: Outcome) { o in {NoRoom, DownloadFailed, StatFailed, TooBig, LoadFailed} }

  function ShouldRetryNow(now: int, retryAt: int, lastFailedBudget: int, budget: int): bool
  {
    now >= retryAt || (lastFailedBudget > 0 && budget > lastFailedBudget + lastFailedBudget / 10)
  }

  function SizeFor(d: Desired, size: int, budget: int): Sizing
  {
    PlanMemory(SizingRequest(Weights(size, d.residentBytes, d.shape), d.ctxSize, d.slots, d.kvType, budget))
  }

  /** What a manager serves: its server's configuration and what it believes
      about it. */
  datatype Serving = Serving(runs: Option<Runs>, current: string, residentBytes: int, lastApplied: Option<Desired>)

  const NOTHING := Serving(None, "", 0, None)

  /** Retry bookkeeping for the desired state that failed last. */
  datatype Retry = Retry(lastFailed: Option<Desired>, budget: int, backoff: int, retryAt: int)

  const NO_RETRY := Retry(None, 0, 0, 0)

  function AfterFailure(r: Retry, d: Desired, now: int, budget: int): Retry
  {
    var b := if r.lastFailed == Some(d) then Min(r.backoff * 2, MAX_BACKOFF) else MIN_BACKOFF;
    Retry(Some(d), budget, b, now + b)
  }

  /** Runs a file whose name the model id is, unless it lies elsewhere. */
  predicate Names(runs: Runs, current: string)
  {
    runs.Llama? && (runs.model.Cached? ==> runs.model.id == current)
  }

  /** A manager's fields about what runs. */
  datatype Fields = Fields(runs: Option<Runs>, content: Option<Hash>, current: string, residentBytes: int, lastApplied: Option<Desired>, rpc: bool,
                           preRPC: Option<PreRPC>)
  {
    function State(): Serving { Serving(runs, current, residentBytes, lastApplied) }

    /** What is served once the manager is out of RPC mode. */
    function Beneath(): Serving
    {
      if !rpc then State()
      else if preRPC.None? then NOTHING
      else Serving(Some(preRPC.value.runs), preRPC.value.current, preRPC.value.residentBytes, preRPC.value.lastApplied)
    }

    /** What leaving RPC mode will serve, if the manager enters it now: nothing
        is remembered when nothing ran. */
    function LeftRPC(): Serving { if !rpc && runs.None? then NOTHING else Beneath() }
  }

  ghost predicate IsRPC(d: Option<Desired>) { d.Some? && d.value.rpc }

  ghost predicate Sound(v: Fields, hasRPCServer: bool)
  {
    && (v.runs.None? ==> v.content.None? && v.current == "" && v.residentBytes == 0)
    && (IsRPC(v.lastApplied) <==> v.rpc)
    && (if v.rpc then hasRPCServer && v.runs == Some(RPCServer) && v.current == "" && v.residentBytes == 0
        else v.preRPC.None? && (v.runs.Some? ==> Names(v.runs.value, v.current)))
    && (v.preRPC.Some? ==> Names(v.preRPC.value.runs, v.preRPC.value.current) && !IsRPC(v.preRPC.value.lastApplied))
  }

  ghost predicate SoundRetry(r: Retry)
  {
    if r.lastFailed.None? then r == NO_RETRY else MIN_BACKOFF <= r.backoff <= MAX_BACKOFF
  }

  /** A manager's fields after enterRPC and after leaveRPC. */
  ghost function Entered(v: Fields, d: Desired, hasRPCServer: bool): Fields
  {
    if (v.rpc && v.lastApplied == Some(d)) || !hasRPCServer then v
    else
      var before := if v.runs.Some? then Some(PreRPC(v.runs.value, v.current, v.residentBytes, v.lastApplied)) else None;
      Fields(Some(RPCServer), None, "", 0, Some(d), true, if v.rpc then v.preRPC else before)
  }

  /** What ran before is started again, and loads what is on disk. */
  ghost function Left(v: Fields, files: Files): Fields
  {
    if !v.rpc then v
    else
      var b := v.Beneath();
      Fields(b.runs, if b.runs.Some? then LoadedFrom(b.runs.value, files) else None, b.current, b.residentBytes, b.lastApplied, false, None)
  }

  lemma EnterKeeps(v: Fields, d: Desired, hasRPCServer: bool)
    requires Sound(v, hasRPCServer) && d.rpc
    ensures var e := Entered(v, d, hasRPCServer);
            && Sound(e, hasRPCServer) && e.Beneath() == (if e.rpc then v.LeftRPC() else v.Beneath())
            && (e.rpc <==> hasRPCServer) && (e.rpc ==> e.lastApplied == Some(d))
  {
  }

  lemma LeaveKeeps(v: Fields, files: Files, hasRPCServer: bool)
    requires Sound(v, hasRPCServer)
    ensures Sound(Left(v, files), hasRPCServer) && Left(v, files).State() == v.Beneath() && !Left(v, files).rpc
  {
  }

  ghost function EnteredAll(v: Fields, pools: seq<Desired>, hasRPCServer: bool): Fields
  {
    if pools == [] then v else Entered(EnteredAll(v, pools[..|pools| - 1], hasRPCServer), pools[|pools| - 1], hasRPCServer)
  }

  /** RPC brackets normal serving: whatever pools the node joins in between,
      leaving gives back the configuration, model and bookkeeping it had, or
      nothing if nothing ran; without the RPC server binary nothing changes. */
  lemma {:induction false} BracketRestores(v: Fields, files: Files, pools: seq<Desired>, hasRPCServer: bool)
    requires Sound(v, hasRPCServer) && !v.rpc && forall d :: d in pools ==> d.rpc
    ensures var e := EnteredAll(v, pools, hasRPCServer);
            && Sound(e, hasRPCServer)
            && Left(e, files).State() == (if hasRPCServer && pools != [] then v.LeftRPC() else v.State())
            && (v.runs.Some? ==> Left(e, files).State() == v.State())
  {
    if pools != [] {
      BracketRestores(v, files, pools[..|pools| - 1], hasRPCServer);
      var e := EnteredAll(v, pools[..|pools| - 1], hasRPCServer);
      EnterKeeps(e, pools[|pools| - 1], hasRPCServer);
      LeaveKeeps(e, files, hasRPCServer);
      LeaveKeeps(Entered(e, pools[|pools| - 1], hasRPCServer), files, hasRPCServer);
    } else {
      LeaveKeeps(v, files, hasRPCServer);
    }
  }

  // ----- a switch to another model ----------------------------------------------------

  function Dest(d: Desired): Path { Cached(d.modelId) }

  /** The file evictions must leave alone: the served model's. */
  function Keep(current: string): Path { if current != "" then Cached(current) else Other("") }

  /** The wanted content, compared without regard to case. */
  predicate IsWanted(sha: Hash, d: Desired) { sha == ToUpper(d.sha256) }

  predicate IsCached(d: Desired, f: Files, w: World)
  {
    d.sha256 != "" && Dest(d) in f && w.readable && IsWanted(f[Dest(d)].sha, d)
  }

  /** downloadModel: only the wanted content reaches its place. */
  predicate Downloads(d: Desired, w: World) { w.download.Some? && IsWanted(w.download.value.sha, d) }

  /** What runs after a failed load: the previous configuration, if its file
      exists, on what is in the file now. */
  ghost function FellBack(v: Fields, files: Files): Fields
  {
    if v.runs.Some? && v.runs.value.Llama? && v.runs.value.model in files then v.(content := Some(files[v.runs.value.model].sha))
    else v.(runs := None, content := None, current := "", residentBytes := 0)
  }

  /** Files are only evicted (never the served model's) or written at dest. */
  ghost predicate FilesMove(f: Files, f': Files, keep: Path, dest: Path)
  {
    && (forall p :: p in f && (p == keep || p == dest || p.Other?) ==> p in f')
    && (forall p :: p in f' && p != dest ==> p in f && f'[p] == f[p])
  }

  /** The configuration d is loaded with. */
  ghost predicate LoadedAs(runs: Runs, d: Desired, size: nat, budget: int)
  {
    var plan := SizeFor(d, size, budget);
    plan.Sized? && runs == Llama(Dest(d), plan.config.ctx, plan.config.slots, plan.config.kv)
  }

  /** A model is loaded with the largest context of the requested one, its half,
      its quarter, … that fits in the budget, with fewer slots only if none fits
      with all; and it is refused exactly when the smallest configuration does
      not fit. */
  lemma LoadsTheLargest(runs: Runs, d: Desired, size: nat, budget: int)
    ensures var w, kvs := Weights(size, d.residentBytes, d.shape), if d.kvType == "f16" || d.kvType == "q8_0" then [d.kvType] else ["f16", "q8_0"];
            var ctx, slots := if d.ctxSize <= 0 then 4096 else d.ctxSize, if d.slots <= 0 then 1 else d.slots;
            && (LoadedAs(runs, d, size, budget) ==>
                  && runs.Llama? && runs.model == Cached(d.modelId)
                  && var need := NeedBytes(w, Config(runs.ctx, runs.slots, runs.kv));
                     need <= budget && Exhausts(w, ctx, slots, kvs, budget, Result(Config(runs.ctx, runs.slots, runs.kv), need, true)))
            && (SizeFor(d, size, budget).DoesNotFit? <==> NeedBytes(w, Config(Min(ctx, 4096), 1, kvs[|kvs| - 1])) > budget)
  {
    var w := Weights(size, d.residentBytes, d.shape);
    SearchHalves(w, d.ctxSize, d.slots, d.kvType, budget);
    SearchIsExact(w, d.ctxSize, d.slots, d.kvType, budget);
    hide PlanFor, NeedBytes, Exhausts;
  }

  lemma FilesMoveOn(f: Files, g: Files, h: Files, keep: Path, dest: Path)
    requires FilesMove(f, g, keep, dest) && FilesMove(g, h, keep, dest)
    ensures FilesMove(f, h, keep, dest)
  {
  }

  lemma SoundAfterFailure(r: Retry, d: Desired, now: int, budget: int)
    ensures SoundRetry(r) ==> SoundRetry(AfterFailure(r, d, now, budget))
  {
  }

  /** The model's file is there: the cached one, or the one just downloaded. */
  ghost predicate Fetched(f: Files, f': Files, d: Desired, w: World)
  {
    && w.statOk && Dest(d) in f' && IsWanted(f'[Dest(d)].sha, d)
    && if IsCached(d, f, w) then f'[Dest(d)].size == f[Dest(d)].size
       else w.free.Some? && Downloads(d, w) && f'[Dest(d)].size == w.download.value.size
  }

  /** Nothing was downloaded. */
  ghost predicate DestKept(f: Files, f': Files, d: Desired)
  {
    (Dest(d) in f <==> Dest(d) in f') && (Dest(d) in f ==> f'[Dest(d)] == f[Dest(d)])
  }

  /** Nothing is evicted unless a download lacks room. */
  ghost predicate EvictsOnlyForRoom(f: Files, f': Files, d: Desired, w: World)
  {
    IsCached(d, f, w) || w.free.None? || w.free.value >= d.sizeBytes ==> f.Keys <= f'.Keys
  }

  /** What an attempt to switch does, by its outcome. */
  ghost predicate Attempts(v: Fields, f: Files, f': Files, d: Desired, w: World, out: Outcome, v': Fields)
  {
    match out
    case AlreadyApplied => false
    case BackingOff => false
    case NoRoom => !IsCached(d, f, w) && (w.free.Some? ==> w.free.value < d.sizeBytes) && DestKept(f, f', d) && v' == v
    case DownloadFailed => !IsCached(d, f, w) && !Downloads(d, w) && DestKept(f, f', d) && v' == v
    case StatFailed =>
      !w.statOk && v' == v && if IsCached(d, f, w) then DestKept(f, f', d) else Downloads(d, w) && Dest(d) in f' && IsWanted(f'[Dest(d)].sha, d)
    case TooBig =>
      Fetched(f, f', d, w) && SizeFor(d, f'[Dest(d)].size, w.budget).DoesNotFit? && !(v.runs.Some? && v.current == d.modelId) && v' == v
    case KeptRunning =>
      && Fetched(f, f', d, w) && SizeFor(d, f'[Dest(d)].size, w.budget).DoesNotFit?
      && v.runs.Some? && v.current == d.modelId && v' == v.(lastApplied := Some(d), residentBytes := d.residentBytes)
    case LoadFailed =>
      Fetched(f, f', d, w) && SizeFor(d, f'[Dest(d)].size, w.budget).Sized? && !w.healthy && v' == FellBack(v, f')
    case Switched =>
      && Fetched(f, f', d, w) && w.healthy && v'.runs.Some? && LoadedAs(v'.runs.value, d, f'[Dest(d)].size, w.budget)
      && v' == Fields(v'.runs, Some(f'[Dest(d)].sha), d.modelId, d.residentBytes, Some(d), false, None) && f'[Dest(d)].mtime == w.now
  }

  lemma FetchedIsThere(f: Files, f': Files, d: Desired, w: World)
    requires Fetched(f, f', d, w)
    ensures Dest(d) in f' && forall keep :: FilesMove(f', f', keep, Dest(d))
  {
  }

  lemma TooBigAttempts(v: Fields, f: Files, f': Files, d: Desired, w: World, out: Outcome, v': Fields)
    requires Fetched(f, f', d, w) && SizeFor(d, f'[Dest(d)].size, w.budget).DoesNotFit?
    requires out == if v.runs.Some? && v.current == d.modelId then KeptRunning else TooBig
    requires v' == if out == KeptRunning then v.(lastApplied := Some(d), residentBytes := d.residentBytes) else v
    ensures Attempts(v, f, f', d, w, out, v')
  {
    hide SizeFor;
  }

  lemma SizedAttempts(v: Fields, f: Files, g: Files, f': Files, d: Desired, w: World, out: Outcome, v': Fields)
    requires Fetched(f, g, d, w) && SizeFor(d, g[Dest(d)].size, w.budget).Sized?
    requires out == if w.healthy then Switched else LoadFailed
    requires f' == if w.healthy then g[Dest(d) := g[Dest(d)].(mtime := w.now)] else g
    requires var config := SizeFor(d, g[Dest(d)].size, w.budget).config;
             v' == if w.healthy then Fields(Some(Llama(Dest(d), config.ctx, config.slots, config.kv)), Some(f'[Dest(d)].sha), d.modelId, d.residentBytes, Some(d), false, None)
                   else FellBack(v, f')
    ensures Attempts(v, f, f', d, w, out, v') && f'.Keys == g.Keys && forall keep :: FilesMove(g, f', keep, Dest(d))
  {
    hide SizeFor, FellBack;
  }

  /** The agent leaves the desired state alone: it is applied already, or it
      failed and the backoff holds. */
  ghost predicate Skips(v: Fields, r: Retry, d: Desired, w: World, out: Outcome)
  {
    if v.lastApplied == Some(d) then out == AlreadyApplied
    else out == BackingOff && r.lastFailed == Some(d) && !ShouldRetryNow(w.now, r.retryAt, r.budget, w.retryBudget)
  }

  /** What one reconcile outside RPC mode does to the fields, the files and the
      retry bookkeeping. */
  ghost predicate Switches(v: Fields, f: Files, r: Retry, d: Desired, w: World, out: Outcome, v': Fields, f': Files, r': Retry)
  {
    if out == AlreadyApplied || out == BackingOff then Skips(v, r, d, w, out) && v' == v && f' == f && r' == r
    else
      && !Skips(v, r, d, w, AlreadyApplied) && !Skips(v, r, d, w, BackingOff)
      && FilesMove(f, f', Keep(v.current), Dest(d)) && Attempts(v, f, f', d, w, out, v') && EvictsOnlyForRoom(f, f', d, w)
      && r' == if Fails(out) then AfterFailure(r, d, w.now, w.failBudget) else NO_RETRY
  }

  /** d names the served file with other content, and this outcome came after
      downloading it over that file. */
  ghost predicate Overwrites(served: Path, f: Files, d: Desired, out: Outcome)
  {
    served == Dest(d) && served in f && !IsWanted(f[served].sha, d) && out in {StatFailed, KeptRunning, LoadFailed, Switched}
  }

  /** After any failed reconcile the phone runs the configuration it ran, if its
      file was on disk; that file has the content it had if and only if no
      download overwrote it, and the server the content it had unless the
      failure was to load such a download. */
  lemma ServingSurvives(v: Fields, f: Files, r: Retry, d: Desired, w: World, out: Outcome, v': Fields, f': Files, r': Retry)
    requires Switches(v, f, r, d, w, out, v', f', r') && Fails(out)
    requires v.runs.Some? && Names(v.runs.value, v.current) && v.current != "" && v.runs.value.model in f
    requires v.content == Some(f[v.runs.value.model].sha)
    ensures var p := v.runs.value.model;
            && p in f' && v' == v.(content := v'.content)
            && (f'[p].sha == f[p].sha <==> !Overwrites(p, f, d, out))
            && (v'.content == v.content <==> !(Overwrites(p, f, d, out) && out == LoadFailed))
  {
    hide ToUpper, SizeFor;
  }

  /** So a phone can lose the model it serves: when its own id is asked for with
      other content, the download works, and the new file loads badly. */
  lemma SameIdDownloadLoses(v: Fields, f: Files, r: Retry, d: Desired, w: World)
    requires v.runs.Some? && v.runs.value.Llama? && v.runs.value.model == Dest(d) && v.current == d.modelId != "" && !v.rpc && v.preRPC.None?
    requires Dest(d) in f && v.content == Some(f[Dest(d)].sha) && !IsWanted(f[Dest(d)].sha, d)
    requires !Skips(v, r, d, w, AlreadyApplied) && !Skips(v, r, d, w, BackingOff)
    requires w.free.Some? && w.free.value >= d.sizeBytes && Downloads(d, w) && w.statOk && !w.healthy
    requires SizeFor(d, w.download.value.size, w.budget).Sized?
    ensures var f' := f[Dest(d) := File(w.download.value.size, w.now, w.download.value.sha)];
            && Switches(v, f, r, d, w, LoadFailed, FellBack(v, f'), f', AfterFailure(r, d, w.now, w.failBudget))
            && FellBack(v, f') == v.(content := Some(w.download.value.sha)) && FellBack(v, f').content != v.content
  {
    hide ToUpper, SizeFor;
  }

  /** A model that is kept because the new settings do not fit counts as
      applied, also when a download just replaced its file: the server runs the
      wanted content if and only if it did not. */
  lemma KeptMayBeOld(v: Fields, f: Files, r: Retry, d: Desired, w: World, v': Fields, f': Files, r': Retry)
    requires Switches(v, f, r, d, w, KeptRunning, v', f', r')
    requires v.runs.Some? && Names(v.runs.value, v.current) && v.runs.value.model.Cached? && v.runs.value.model in f
    requires v.content == Some(f[v.runs.value.model].sha)
    ensures v'.lastApplied == Some(d) && v'.content == v.content
    ensures IsWanted(v'.content.value, d) <==> !Overwrites(v.runs.value.model, f, d, KeptRunning)
  {
    hide ToUpper, SizeFor;
  }

  /** When somebody else deleted the served model's file, a failed load leaves
      the phone without a model, and asking for the served model again is
      skipped as already applied: it runs if and only if the file is there. */
  lemma LostFileStrands(v: Fields, f: Files, r: Retry, d: Desired, w: World, v': Fields, f': Files, r': Retry,
                        served: Desired, w2: World, out: Outcome, v'': Fields, f'': Files, r'': Retry)
    requires v.lastApplied == Some(served) && v.runs.Some? && v.runs.value.Llama?
    requires Switches(v, f, r, d, w, LoadFailed, v', f', r') && Switches(v', f', r', served, w2, out, v'', f'', r'')
    ensures out == AlreadyApplied && (v''.runs.Some? <==> v.runs.value.model in f')
  {
  }

  // ----- repeated failures --------------------------------------------------------------

  /** A moment of the retry bookkeeping: the time and the budget of a failure. */
  datatype Failure = Failure(now: int, budget: int)

  /** The bookkeeping after d failed at these moments, with nothing in between. */
  ghost function AfterFailures(r: Retry, d: Desired, fails: seq<Failure>): Retry
  {
    if fails == [] then r
    else
      var last := fails[|fails| - 1];
      AfterFailure(AfterFailures(r, d, fails[..|fails| - 1]), d, last.now, last.budget)
  }

  /** k failures of one desired state in a row hold it back for min(30 s doubled
      k - 1 times, 600 s) after the last one, and until then it is only tried
      again when the memory budget has grown by more than a tenth. */
  lemma {:induction false} FailuresBackOff(r: Retry, d: Desired, fails: seq<Failure>, now: int, budget: int)
    requires r.lastFailed != Some(d) && fails != []
    ensures var last, after := fails[|fails| - 1], AfterFailures(r, d, fails);
            var wait := Min(Doubled(MIN_BACKOFF, |fails| - 1), MAX_BACKOFF);
            && after == Retry(Some(d), last.budget, wait, last.now + wait)
            && (ShouldRetryNow(now, after.retryAt, after.budget, budget) <==>
                  now - last.now >= wait || (last.budget > 0 && budget > last.budget + last.budget / 10))
  {
    var init := fails[..|fails| - 1];
    if init != [] {
      FailuresBackOff(r, d, init, now, budget);
    }
  }

  /** The failures among these attempts, in order. */
  ghost function FailuresOf(ws: seq<World>, outs: seq<Outcome>): seq<Failure>
    requires |ws| == |outs|
  {
    if outs == [] then []
    else
      var n := |outs| - 1;
      FailuresOf(ws[..n], outs[..n]) + if Fails(outs[n]) then [Failure(ws[n].now, ws[n].failBudget)] else []
  }

  lemma RepeatStep(m: Moment, d: Desired, w: World, out: Outcome, m': Moment, hasRPCServer: bool)
    requires Follow(m, Wanted(d), w, out, m', hasRPCServer) && !d.rpc
    ensures Fails(out) ==> m'.retry == AfterFailure(m.retry, d, w.now, w.failBudget)
    ensures out == BackingOff ==> m'.retry == m.retry
    ensures out == BackingOff || Fails(out) ==>
              (out == BackingOff <==> m.retry.lastFailed == Some(d) && !ShouldRetryNow(w.now, m.retry.retryAt, m.retry.budget, w.retryBudget))
  {
    hide Attempts, FilesMove, EvictsOnlyForRoom, AfterFailure, ShouldRetryNow;
  }

  /** However often the controller repeats a desired state that keeps failing,
      the agent's bookkeeping is that of the attempts it made: repetitions while
      it backs off leave no trace. */
  lemma {:induction false} RepeatsBackOff(run: seq<Moment>, d: Desired, ws: seq<World>, outs: seq<Outcome>, hasRPCServer: bool)
    requires !d.rpc && |run| == |ws| + 1 == |outs| + 1 && Repeats(run, d, ws, outs, hasRPCServer)
    ensures run[|ws|].retry == AfterFailures(run[0].retry, d, FailuresOf(ws, outs))
  {
    hide Follow, AfterFailure;
    if ws != [] {
      var n := |ws| - 1;
      assert Follow(run[n], Wanted(d), ws[n], outs[n], run[n + 1], hasRPCServer);
      RepeatsBackOff(run[..n + 1], d, ws[..n], outs[..n], hasRPCServer);
      RepeatStep(run[n], d, ws[n], outs[n], run[n + 1], hasRPCServer);
      var before := FailuresOf(ws[..n], outs[..n]);
      var f := Failure(ws[n].now, ws[n].failBudget);
      assert (before + [f])[..|before|] == before && before + [] == before;
    }
  }

  /** The same desired state is asked for again and again, and fails or waits. */
  ghost predicate Repeats(run: seq<Moment>, d: Desired, ws: seq<World>, outs: seq<Outcome>, hasRPCServer: bool)
    requires |run| == |ws| + 1 == |outs| + 1
  {
    forall i :: 0 <= i < |ws| ==> Follow(run[i], Wanted(d), ws[i], outs[i], run[i + 1], hasRPCServer) && (Fails(outs[i]) || outs[i] == BackingOff)
  }

  /** So once it has failed k times, the next repetition is an attempt if and only
      if min(30 s doubled k - 1 times, 600 s) have passed since the last failure,
      or the budget has grown by more than a tenth since. */
  lemma RepeatsAreSpaced(run: seq<Moment>, d: Desired, ws: seq<World>, outs: seq<Outcome>, hasRPCServer: bool, w: World, out: Outcome, next: Moment)
    requires !d.rpc && |run| == |ws| + 1 == |outs| + 1 && Repeats(run, d, ws, outs, hasRPCServer)
    requires run[0].retry.lastFailed != Some(d) && FailuresOf(ws, outs) != []
    requires Follow(run[|ws|], Wanted(d), w, out, next, hasRPCServer) && (Fails(out) || out == BackingOff)
    ensures var fails := FailuresOf(ws, outs);
            var last := fails[|fails| - 1];
            out == BackingOff <==> !(|| w.now - last.now >= Min(Doubled(MIN_BACKOFF, |fails| - 1), MAX_BACKOFF)
                                     || (last.budget > 0 && w.retryBudget > last.budget + last.budget / 10))
  {
    hide Follow, Repeats, Doubled;
    RepeatsBackOff(run, d, ws, outs, hasRPCServer);
    FailuresBackOff(run[0].retry, d, FailuresOf(ws, outs), w.now, w.retryBudget);
    RepeatStep(run[|ws|], d, w, out, next, hasRPCServer);
  }

  // ----- any number of requests --------------------------------------------------------

  /** One request, from outside or inside RPC mode. */
  ghost predicate Step(v: Fields, f: Files, r: Retry, req: Request, w: World, out: Outcome, v': Fields, f': Files, r': Retry, hasRPCServer: bool)
  {
    if req.Release? then v' == Left(v, f) && f' == f && r' == r
    else if req.desired.rpc then v' == Entered(v, req.desired, hasRPCServer) && f' == f
    else Switches(Left(v, f), f, r, req.desired, w, out, v', f', r')
  }

  /** A model is served, or will be on leaving RPC mode; its file is on disk with
      this content, which a server has loaded well; and what was applied last
      is that model with that content. */
  ghost predicate Up(v: Fields, f: Files, proven: Hash)
  {
    var b := v.Beneath();
    && b.runs.Some? && Names(b.runs.value, b.current) && b.current != ""
    && b.runs.value.model in f && f[b.runs.value.model].sha == proven && (!v.rpc ==> v.content == Some(proven))
    && (b.lastApplied.Some? ==>
          b.lastApplied.value.modelId == b.current && (b.runs.value.model.Cached? ==> IsWanted(proven, b.lastApplied.value)))
  }

  /** proven is the content of the model that a server loaded well last. */
  datatype Moment = Moment(fields: Fields, files: Files, retry: Retry, proven: Hash)

  ghost predicate Named(req: Request) { req.Wanted? ==> req.desired.modelId != "" }

  predicate Serves(req: Request) { req.Wanted? && !req.desired.rpc }

  ghost predicate Follow(m: Moment, req: Request, w: World, out: Outcome, m': Moment, hasRPCServer: bool)
  {
    && Step(m.fields, m.files, m.retry, req, w, out, m'.fields, m'.files, m'.retry, hasRPCServer)
    && if Serves(req) && out == Switched then Dest(req.desired) in m'.files && m'.proven == m'.files[Dest(req.desired)].sha
       else m'.proven == m.proven
  }

  /** run is a history of the manager: run[i + 1] follows run[i] by reqs[i]. */
  ghost predicate Follows(run: seq<Moment>, reqs: seq<Request>, ws: seq<World>, outs: seq<Outcome>, hasRPCServer: bool)
  {
    && |run| == |reqs| + 1 && |ws| == |reqs| && |outs| == |reqs|
    && forall i :: 0 <= i < |reqs| ==> Follow(run[i], reqs[i], ws[i], outs[i], run[i + 1], hasRPCServer)
  }

  /** The request overwrote the served model's file by a download that was not
      loaded well. */
  ghost predicate Loses(m: Moment, req: Request, out: Outcome)
  {
    var b := m.fields.Beneath();
    Serves(req) && out != Switched && b.runs.Some? && b.runs.value.Llama? && Overwrites(b.runs.value.model, m.files, req.desired, out)
  }

  /** A phone that serves a model never goes dark: through any requests, failed
      downloads, evictions, failed loads and RPC pools, it stays up, on content
      that loaded well, if and only if no request overwrote the served file by
      a download that was not loaded well. */
  lemma {:induction false} NeverDark(run: seq<Moment>, reqs: seq<Request>, ws: seq<World>, outs: seq<Outcome>, hasRPCServer: bool)
    requires Follows(run, reqs, ws, outs, hasRPCServer) && forall q :: q in reqs ==> Named(q)
    requires Sound(run[0].fields, hasRPCServer) && Up(run[0].fields, run[0].files, run[0].proven)
    ensures Sound(run[|reqs|].fields, hasRPCServer)
    ensures (forall i :: 0 <= i <= |reqs| ==> Up(run[i].fields, run[i].files, run[i].proven))
            <==> forall i :: 0 <= i < |reqs| ==> !Loses(run[i], reqs[i], outs[i])
  {
    hide Sound, Up, Loses, Follow, Named;
    if reqs != [] {
      var n := |reqs| - 1;
      NeverDark(run[..n + 1], reqs[..n], ws[..n], outs[..n], hasRPCServer);
      assert Follow(run[n], reqs[n], ws[n], outs[n], run[n + 1], hasRPCServer);
      StaysSound(run[n], reqs[n], ws[n], outs[n], run[n + 1], hasRPCServer);
      if Up(run[n].fields, run[n].files, run[n].proven) { StaysUp(run[n], reqs[n], ws[n], outs[n], run[n + 1], hasRPCServer); }
    }
  }

  lemma StaysSound(m: Moment, req: Request, w: World, out: Outcome, m': Moment, hasRPCServer: bool)
    requires Follow(m, req, w, out, m', hasRPCServer) && Sound(m.fields, hasRPCServer)
    ensures Sound(m'.fields, hasRPCServer)
  {
    LeaveKeeps(m.fields, m.files, hasRPCServer);
    if req.Wanted? {
      if req.desired.rpc {
        EnterKeeps(m.fields, req.desired, hasRPCServer);
      } else {
        SwitchKeeps(Left(m.fields, m.files), m.files, m.retry, req.desired, w, out, m'.fields, m'.files, m'.retry, hasRPCServer);
      }
    }
  }

  lemma StaysUp(m: Moment, req: Request, w: World, out: Outcome, m': Moment, hasRPCServer: bool)
    requires Follow(m, req, w, out, m', hasRPCServer) && Named(req)
    requires Sound(m.fields, hasRPCServer) && Up(m.fields, m.files, m.proven)
    ensures Up(m'.fields, m'.files, m'.proven) <==> !Loses(m, req, out)
  {
    LeaveKeeps(m.fields, m.files, hasRPCServer);
    LeavingStaysUp(m.fields, m.files, m.proven, hasRPCServer);
    if req.Wanted? {
      if req.desired.rpc {
        EnterKeeps(m.fields, req.desired, hasRPCServer);
      } else {
        var v := Left(m.fields, m.files);
        SwitchKeeps(v, m.files, m.retry, req.desired, w, out, m'.fields, m'.files, m'.retry, hasRPCServer);
        SwitchStaysUp(v, m.files, m.retry, req.desired, w, out, m'.fields, m'.files, m'.retry, m.proven, m'.proven, hasRPCServer);
      }
    }
  }

  lemma LeavingStaysUp(v: Fields, f: Files, proven: Hash, hasRPCServer: bool)
    requires Sound(v, hasRPCServer) && Up(v, f, proven)
    ensures Up(Left(v, f), f, proven)
  {
  }

  lemma SwitchStaysUp(v: Fields, f: Files, r: Retry, d: Desired, w: World, out: Outcome, v': Fields, f': Files, r': Retry,
                      proven: Hash, proven': Hash, hasRPCServer: bool)
    requires Switches(v, f, r, d, w, out, v', f', r') && Sound(v, hasRPCServer) && !v.rpc && !d.rpc && d.modelId != ""
    requires Up(v, f, proven) && if out == Switched then Dest(d) in f' && proven' == f'[Dest(d)].sha else proven' == proven
    ensures Up(v', f', proven') <==> !(out != Switched && Overwrites(v.runs.value.model, f, d, out))
  {
    hide ToUpper, SizeFor;
    if Fails(out) { ServingSurvives(v, f, r, d, w, out, v', f', r'); }
  }

  /** What a caller can check before asking for d: some world loses the served
      model if and only if d names its file with other content, by a hash that a
      file can have. */
  lemma LosesInSomeWorld(m: Moment, d: Desired, hasRPCServer: bool)
    requires Sound(m.fields, hasRPCServer) && Up(m.fields, m.files, m.proven) && !d.rpc && d.modelId != ""
    ensures (exists w, out, m' :: Follow(m, Wanted(d), w, out, m', hasRPCServer) && Loses(m, Wanted(d), out))
            <==> m.fields.Beneath().runs.value.model == Dest(d) && m.proven != ToUpper(d.sha256) && |ToUpper(d.sha256)| == 64
  {
    if w, out, m' :| Follow(m, Wanted(d), w, out, m', hasRPCServer) && Loses(m, Wanted(d), out) {
      OnlyHashesArrive(Left(m.fields, m.files), m.files, m.retry, d, w, out, m'.fields, m'.files, m'.retry);
    }
    hide Follow, Loses;
    if m.fields.Beneath().runs.value.model == Dest(d) && m.proven != ToUpper(d.sha256) && |ToUpper(d.sha256)| == 64 {
      var w, m' := LosingWorld(m, d, hasRPCServer);
    }
  }

  lemma OnlyHashesArrive(v: Fields, f: Files, r: Retry, d: Desired, w: World, out: Outcome, v': Fields, f': Files, r': Retry)
    requires Switches(v, f, r, d, w, out, v', f', r') && out in {StatFailed, KeptRunning, LoadFailed}
    ensures |ToUpper(d.sha256)| == 64
  {
    hide ToUpper, SizeFor;
  }

  /** The download works, and the new file cannot be examined. */
  lemma LosingWorld(m: Moment, d: Desired, hasRPCServer: bool) returns (w: World, m': Moment)
    requires Sound(m.fields, hasRPCServer) && Up(m.fields, m.files, m.proven) && !d.rpc && d.modelId != ""
    requires m.fields.Beneath().runs.value.model == Dest(d) && m.proven != ToUpper(d.sha256) && |ToUpper(d.sha256)| == 64
    ensures Follow(m, Wanted(d), w, StatFailed, m', hasRPCServer) && Loses(m, Wanted(d), StatFailed)
  {
    hide ToUpper;
    var h: Hash := ToUpper(d.sha256);
    var v, now := Left(m.fields, m.files), m.retry.retryAt;
    LeaveKeeps(m.fields, m.files, hasRPCServer);
    w := World(now, 0, true, Some(d.sizeBytes), Disk(true, _ => true, _ => true), Some(Got(0, h)), false, 0, 0, false);
    m' := Moment(v, m.files[Dest(d) := File(0, now, h)], AfterFailure(m.retry, d, now, 0), m.proven);
    assert ShouldRetryNow(now, m.retry.retryAt, m.retry.budget, 0);
    assert Switches(v, m.files, m.retry, d, w, StatFailed, v, m'.files, m'.retry);
  }

  lemma SwitchKeeps(v: Fields, f: Files, r: Retry, d: Desired, w: World, out: Outcome, v': Fields, f': Files, r': Retry, hasRPCServer: bool)
    requires Switches(v, f, r, d, w, out, v', f', r') && Sound(v, hasRPCServer) && !v.rpc && !d.rpc
    ensures Sound(v', hasRPCServer) && !v'.rpc && (SoundRetry(r) ==> SoundRetry(r'))
  {
  }

  class Manager {
    const hasRPCServer: bool
    var runtime: Option<Server>
    var current: string
    var residentBytes: int
    var lastApplied: Option<Desired>
    var lastErr: Error
    var retry: Retry
    var rpc: bool
    var preRPC: Option<PreRPC>
    var queued: Option<Request>
    // the phone: model files, and the servers whose process runs
    var files: Files
    var live: set<nat>
    var started: nat

    ghost predicate Valid()
      reads this
    {
      && live == (if runtime.Some? then {runtime.value.id} else {}) && (runtime.Some? ==> runtime.value.id < started)
      && Sound(View(), hasRPCServer) && SoundRetry(retry)
    }

    function View(): Fields
      reads this
    {
      Fields(if runtime.Some? then Some(runtime.value.runs) else None, if runtime.Some? then runtime.value.content else None,
             current, residentBytes, lastApplied, rpc, preRPC)
    }

    function State(): Serving
      reads this
    {
      View().State()
    }

    function Beneath(): Serving
      reads this
    {
      View().Beneath()
    }

    constructor (hasRPCServer: bool, files: Files)
      ensures Valid() && State() == NOTHING && this.files == files && queued.None? && !rpc
    {
      this.hasRPCServer, this.files := hasRPCServer, files;
      runtime, current, residentBytes, lastApplied, lastErr := None, "", 0, None, NoError;
      retry, rpc, preRPC, queued, live, started := NO_RETRY, false, None, None, {}, 0;
    }

    /** One critical section's assignments. */
    method Become(runtime: Option<Server>, current: string, residentBytes: int, lastApplied: Option<Desired>, rpc: bool, preRPC: Option<PreRPC>)
      modifies this`runtime, this`current, this`residentBytes, this`lastApplied, this`rpc, this`preRPC
      ensures this.runtime == runtime && this.current == current && this.residentBytes == residentBytes
      ensures this.lastApplied == lastApplied && this.rpc == rpc && this.preRPC == preRPC
    {
      this.runtime, this.current, this.residentBytes := runtime, current, residentBytes;
      this.lastApplied, this.rpc, this.preRPC := lastApplied, rpc, preRPC;
    }

    // ----- processes ----------------------------------------------------------------

    /** Starts a server.  Never called while another one runs. */
    method Start(runs: Runs) returns (s: Server)
      requires live == {}
      modifies this`live, this`started
      ensures live == {s.id} && s.runs == runs && s.content == LoadedFrom(runs, files) && s.id < started
    {
      s := Server(started, runs, LoadedFrom(runs, files));
      live, started := {started}, started + 1;
    }

    /** Stops the active server, if any, and waits for it to exit. */
    method Stop()
      requires live == if runtime.Some? then {runtime.value.id} else {}
      modifies this`live
      ensures live == {}
    {
      if runtime.Some? { live := live - {runtime.value.id}; }
    }

    /** The static model, before anything else runs. */
    method StartStatic(model: Path, name: string, ctx: int)
      requires Valid() && runtime.None? && !rpc && (model.Cached? ==> model.id == name)
      modifies this
      ensures Valid() && files == old(files)
      ensures View() == Fields(Some(Llama(model, ctx, 1, "")), LoadedFrom(Llama(model, ctx, 1, ""), files), name, 0, old(lastApplied), false, None)
    {
      var s := Start(Llama(model, ctx, 1, ""));
      runtime, current := Some(s), name;
    }

    // ----- the mailbox -----------------------------------------------------------------

    /** nil is ignored outside RPC mode and releases it inside; only the latest
        request is kept. */
    method SetDesired(d: Option<Desired>)
      modifies this`queued
      ensures queued == if d.Some? then Some(Wanted(d.value)) else if rpc then Some(Release) else old(queued)
    {
      if d.None? && !rpc { return; }
      queued := None;
      queued := Some(if d.None? then Release else Wanted(d.value));
    }

    // ----- RPC mode ----------------------------------------------------------------------

    /** enterRPC: lends the node's RAM; what served before is remembered, once. */
    method EnterRPC(d: Desired)
      requires Valid() && d.rpc
      modifies this
      ensures Valid() && files == old(files) && queued == old(queued)
      ensures View() == Entered(old(View()), d, hasRPCServer)
      ensures retry == if hasRPCServer && View() != old(View()) then NO_RETRY else old(retry)
      ensures lastErr == if old(rpc) && old(lastApplied) == Some(d) then old(lastErr) else if hasRPCServer then NoError else NoRPCServer
    {
      EnterKeeps(View(), d, hasRPCServer);
      hide Sound;
      if rpc && lastApplied == Some(d) { return; }
      if !hasRPCServer {
        lastErr := NoRPCServer;
        return;
      }
      var before := preRPC;
      if !rpc {
        before := None;
        if runtime.Some? { before := Some(PreRPC(runtime.value.runs, current, residentBytes, lastApplied)); }
      }
      Stop();
      var s := Start(RPCServer);
      Become(Some(s), "", 0, Some(d), true, before);
      lastErr, retry := NoError, NO_RETRY;
    }

    /** leaveRPC: restarts what ran before RPC mode, if anything. */
    method LeaveRPC()
      requires Valid()
      modifies this
      ensures Valid() && files == old(files) && queued == old(queued) && retry == old(retry)
      ensures View() == Left(old(View()), files)
      ensures lastErr == if old(rpc) then NoError else old(lastErr)
      ensures !old(rpc) ==> runtime == old(runtime)
    {
      LeaveKeeps(View(), files, hasRPCServer);
      hide Sound;
      if !rpc { return; }
      var prev := preRPC;
      lastErr := NoError;
      Stop();
      if prev.None? {
        Become(None, "", 0, None, false, None);
        return;
      }
      var s := Start(prev.value.runs);
      Become(Some(s), prev.value.current, prev.value.residentBytes, prev.value.lastApplied, false, None);
    }

    // ----- switching ------------------------------------------------------------------

    /** fail: remembers the failure and arms the backoff (FailuresBackOff says
        for how long). */
    method Fail(d: Desired, now: int, budget: int)
      modifies this`lastErr, this`retry
      ensures retry == AfterFailure(old(retry), d, now, budget) && lastErr == SwitchFailed(d.modelId)
    {
      lastErr := SwitchFailed(d.modelId);
      var backoff := if retry.lastFailed == Some(d) then Min(retry.backoff * 2, MAX_BACKOFF) else MIN_BACKOFF;
      retry := Retry(Some(d), budget, backoff, now + backoff);
    }

    /** makeRoom: evicts other models until the download fits. */
    method MakeRoom(dest: Path, needed: int, w: World) returns (ok: bool)
      modifies this`files
      ensures FilesMove(old(files), files, Keep(current), dest) && (dest in files <==> dest in old(files))
      ensures if ok then w.free.Some? else w.free.Some? ==> w.free.value < needed
      ensures w.free.None? || w.free.value >= needed ==> files == old(files)
      ensures dest in files ==> files[dest] == old(files)[dest]
    {
      if w.free.None? { return false; }
      ghost var gone;
      files, ok, gone := EvictLRU(files, w.disk, Keep(current), dest, w.free.value, needed);
    }

    /** Gets the model's file: from the cache, or by a download. */
    method Fetch(d: Desired, w: World) returns (ok: bool, why: Outcome)
      modifies this`files
      ensures FilesMove(old(files), files, Keep(current), Dest(d)) && (IsCached(d, old(files), w) ==> files == old(files))
      ensures EvictsOnlyForRoom(old(files), files, d, w)
      ensures if ok then Fetched(old(files), files, d, w)
              else why in {NoRoom, DownloadFailed, StatFailed} && Attempts(View(), old(files), files, d, w, why, View())
    {
      if !IsCached(d, files, w) {
        var room := MakeRoom(Dest(d), d.sizeBytes, w);
        if !room { return false, NoRoom; }
        if !Downloads(d, w) { return false, DownloadFailed; }
        files := files[Dest(d) := File(w.download.value.size, w.now, w.download.value.sha)];
      }
      if !w.statOk { return false, StatFailed; }
      return true, Switched;
    }

    /** load: stops the current server and starts the new one; if that one does
        not become healthy, the previous one is started again. */
    method Load(d: Desired, config: Config, w: World) returns (ok: bool)
      requires Valid() && !rpc && !d.rpc && Dest(d) in files
      modifies this`runtime, this`current, this`residentBytes, this`lastApplied, this`rpc, this`preRPC, this`live, this`started, this`files
      ensures Valid() && ok == w.healthy
      ensures !ok ==> files == old(files) && View() == FellBack(old(View()), files)
      ensures ok ==> files == old(files)[Dest(d) := old(files)[Dest(d)].(mtime := w.now)]
      ensures ok ==> View() == Fields(Some(Llama(Dest(d), config.ctx, config.slots, config.kv)), Some(files[Dest(d)].sha), d.modelId, d.residentBytes, old(lastApplied), false, None)
    {
      var prev, prevModel, prevResident, applied := runtime, current, residentBytes, lastApplied;
      Stop();
      var s := Start(Llama(Dest(d), config.ctx, config.slots, config.kv));
      if !w.healthy {
        live := live - {s.id};
        Fallback(prev, prevModel, prevResident);
        return false;
      }
      files := files[Dest(d) := files[Dest(d)].(mtime := w.now)];
      Become(Some(s), d.modelId, d.residentBytes, applied, false, None);
      return true;
    }

    /** fallback: restarts the previous model if its file is still on disk. */
    method Fallback(prev: Option<Server>, prevModel: string, prevResident: int)
      requires live == {} && !rpc && preRPC.None? && !IsRPC(lastApplied) && SoundRetry(retry)
      requires if prev.Some? then Names(prev.value.runs, prevModel) else prevModel == "" && prevResident == 0
      modifies this`runtime, this`current, this`residentBytes, this`lastApplied, this`rpc, this`preRPC, this`live, this`started
      ensures Valid()
      ensures View() == FellBack(Fields(if prev.Some? then Some(prev.value.runs) else None, if prev.Some? then prev.value.content else None, prevModel, prevResident, old(lastApplied), false, None), files)
    {
      var applied := lastApplied;
      if prev.None? || prev.value.runs.model !in files {
        Become(None, "", 0, applied, false, None);
        return;
      }
      var s := Start(prev.value.runs);
      Become(Some(s), prevModel, prevResident, applied, false, None);
    }

    /** The file is there: sizes the model and loads it. */
    method Apply(d: Desired, w: World, ghost f: Files) returns (out: Outcome)
      requires Valid() && !rpc && !d.rpc && Fetched(f, files, d, w)
      modifies this
      ensures Valid() && queued == old(queued) && retry == old(retry) && lastErr == old(lastErr)
      ensures out in {TooBig, KeptRunning, LoadFailed, Switched} && Attempts(old(View()), f, files, d, w, out, View())
      ensures files.Keys == old(files.Keys)
      ensures FilesMove(old(files), files, Keep(old(current)), Dest(d))
    {
      FetchedIsThere(f, files, d, w);
      hide Attempts, FilesMove, Fetched, Sound, FellBack;
      match SizeFor(d, files[Dest(d)].size, w.budget) {
        case DoesNotFit(_) =>
          out := KeepOrRefuse(d);
          TooBigAttempts(old(View()), f, files, d, w, out, View());
        case Sized(config, _) =>
          out := LoadSized(d, config, w);
          SizedAttempts(old(View()), f, old(files), files, d, w, out, View());
      }
    }

    /** The requested settings do not fit: a model that is running already is
        kept as it runs. */
    method KeepOrRefuse(d: Desired) returns (out: Outcome)
      requires Valid() && !rpc && !d.rpc
      modifies this`lastApplied, this`residentBytes
      ensures Valid() && out == if runtime.Some? && current == d.modelId then KeptRunning else TooBig
      ensures View() == if out == KeptRunning then old(View()).(lastApplied := Some(d), residentBytes := d.residentBytes) else old(View())
    {
      if !(runtime.Some? && current == d.modelId) { return TooBig; }
      lastApplied, residentBytes := Some(d), d.residentBytes;
      return KeptRunning;
    }

    method LoadSized(d: Desired, config: Config, w: World) returns (out: Outcome)
      requires Valid() && !rpc && !d.rpc && Dest(d) in files
      modifies this`runtime, this`current, this`residentBytes, this`lastApplied, this`rpc, this`preRPC, this`live, this`started, this`files
      ensures Valid() && files == if w.healthy then old(files)[Dest(d) := old(files)[Dest(d)].(mtime := w.now)] else old(files)
      ensures out == (if w.healthy then Switched else LoadFailed)
      ensures View() == if w.healthy then Fields(Some(Llama(Dest(d), config.ctx, config.slots, config.kv)), Some(files[Dest(d)].sha), d.modelId, d.residentBytes, Some(d), false, None)
                        else FellBack(old(View()), files)
    {
      var ok := Load(d, config, w);
      if !ok { return LoadFailed; }
      lastApplied := Some(d);
      return Switched;
    }

    method FetchAndApply(d: Desired, w: World) returns (out: Outcome)
      requires Valid() && !rpc && !d.rpc
      modifies this
      ensures Valid() && queued == old(queued) && retry == old(retry) && lastErr == old(lastErr)
      ensures !(out in {AlreadyApplied, BackingOff}) && Attempts(old(View()), old(files), files, d, w, out, View())
      ensures EvictsOnlyForRoom(old(files), files, d, w)
      ensures FilesMove(old(files), files, Keep(old(current)), Dest(d))
    {
      hide Sound;
      var ok;
      ok, out := Fetch(d, w);
      if !ok { return; }
      ghost var fetched := files;
      hide Attempts, FilesMove, Fetched;
      out := Apply(d, w, old(files));
      FilesMoveOn(old(files), fetched, files, Keep(old(current)), Dest(d));
    }

    /** reconcile, for a model to serve outside RPC mode. */
    method Switch(d: Desired, w: World) returns (out: Outcome)
      requires Valid() && !rpc && !d.rpc
      modifies this
      ensures Valid() && queued == old(queued)
      ensures Switches(old(View()), old(files), old(retry), d, w, out, View(), files, retry)
      ensures lastErr == if out == AlreadyApplied || out == BackingOff then old(lastErr) else if Fails(out) then SwitchFailed(d.modelId) else NoError
    {
      hide Sound, Attempts, FilesMove, AfterFailure, EvictsOnlyForRoom;
      SoundAfterFailure(retry, d, w.now, w.failBudget);
      if lastApplied == Some(d) { return AlreadyApplied; }
      if retry.lastFailed == Some(d) && !ShouldRetryNow(w.now, retry.retryAt, retry.budget, w.retryBudget) { return BackingOff; }
      lastErr := NoError;
      out := FetchAndApply(d, w);
      if Fails(out) { Fail(d, w.now, w.failBudget); } else { retry := NO_RETRY; }
    }

    /** reconcile.  Any request; a model to serve ends RPC mode first. */
    method Reconcile(req: Request, w: World) returns (out: Outcome)
      requires Valid()
      modifies this
      ensures Valid() && queued == old(queued)
      ensures Step(old(View()), old(files), old(retry), req, w, out, View(), files, retry, hasRPCServer)
    {
      out := AlreadyApplied;
      if req.Release? {
        LeaveRPC();
        return;
      }
      if req.desired.rpc {
        EnterRPC(req.desired);
        return;
      }
      LeaveKeeps(View(), files, hasRPCServer);
      LeaveRPC();
      out := Switch(req.desired, w);
    }

    /** Run's loop: takes the queued request, if any, and reconciles it. */
    method Turn(w: World)
      requires Valid()
      modifies this
      ensures Valid() && queued.None?
      ensures if old(queued).None? then View() == old(View()) && files == old(files) && retry == old(retry)
              else exists out :: Step(old(View()), old(files), old(retry), old(queued).value, w, out, View(), files, retry, hasRPCServer)
    {
      if queued.None? { return; }
      var req := queued.value;
      queued := None;
      var out := Reconcile(req, w);
    }
  }

  // ----- a manager's life -----------------------------------------------------------------

  /** The moment after a step. */
  lemma After(m: Moment, req: Request, w: World, out: Outcome, v': Fields, f': Files, r': Retry, hasRPCServer: bool) returns (m': Moment)
    requires Step(m.fields, m.files, m.retry, req, w, out, v', f', r', hasRPCServer)
    ensures Follow(m, req, w, out, m', hasRPCServer) && m' == Moment(v', f', r', m'.proven)
  {
    hide ToUpper, SizeFor;
    m' := Moment(v', f', r', if Serves(req) && out == Switched && Dest(req.desired) in f' then f'[Dest(req.desired)].sha else m.proven);
  }

  lemma FollowsSnoc(run: seq<Moment>, reqs: seq<Request>, ws: seq<World>, outs: seq<Outcome>, out: Outcome, next: Moment, i: nat, hasRPCServer: bool)
    requires i < |reqs| == |ws| && Follows(run, reqs[..i], ws[..i], outs, hasRPCServer) && Follow(run[i], reqs[i], ws[i], out, next, hasRPCServer)
    ensures Follows(run + [next], reqs[..i + 1], ws[..i + 1], outs + [out], hasRPCServer)
  {
    hide Follow;
  }

  /** Run: starts the static model, if there is one, then reconciles any requests.
      Its history is a run of the protocol; so, if the static file was there, the
      phone stays up exactly as NeverDark says. */
  method Run(m: Manager, static_: Option<Path>, name: string, ctx: int, reqs: seq<Request>, ws: seq<World>)
    returns (outs: seq<Outcome>, ghost run: seq<Moment>)
    requires m.Valid() && m.State() == NOTHING && !m.rpc && (static_.Some? && static_.value.Cached? ==> static_.value.id == name)
    requires |reqs| == |ws| && forall q :: q in reqs ==> Named(q)
    modifies m
    ensures m.Valid() && Follows(run, reqs, ws, outs, m.hasRPCServer) && run[|reqs|] == Moment(m.View(), m.files, m.retry, run[|reqs|].proven)
    ensures static_.Some? && static_.value in old(m.files) && name != "" ==>
              && run[0].proven == old(m.files)[static_.value].sha
              && ((forall i :: 0 <= i <= |reqs| ==> Up(run[i].fields, run[i].files, run[i].proven))
                  <==> forall i :: 0 <= i < |reqs| ==> !Loses(run[i], reqs[i], outs[i]))
  {
    ghost var proven: Hash := *;
    if static_.Some? {
      m.StartStatic(static_.value, name, ctx);
      if static_.value in m.files { proven := m.files[static_.value].sha; }
    }
    ghost var start := Moment(m.View(), m.files, m.retry, proven);
    assert Sound(start.fields, m.hasRPCServer);
    assert static_.Some? && static_.value in m.files && name != "" ==> Up(start.fields, start.files, proven);
    hide Up, Loses, Sound, Named, Step, Follow, Follows;
    outs, run := Reconciles(m, start, reqs, ws);
    if Up(start.fields, start.files, proven) { NeverDark(run, reqs, ws, outs, m.hasRPCServer); }
  }

  method Reconciles(m: Manager, ghost start: Moment, reqs: seq<Request>, ws: seq<World>) returns (outs: seq<Outcome>, ghost run: seq<Moment>)
    requires m.Valid() && |reqs| == |ws| && start == Moment(m.View(), m.files, m.retry, start.proven)
    modifies m
    ensures m.Valid() && Follows(run, reqs, ws, outs, m.hasRPCServer)
    ensures run[0] == start && run[|reqs|] == Moment(m.View(), m.files, m.retry, run[|reqs|].proven)
  {
    run, outs := [start], [];
    assert reqs[..0] == [] && ws[..0] == [];
    assert Follows(run, reqs[..0], ws[..0], outs, m.hasRPCServer);
    hide Step, Follow, Follows;
    for i := 0 to |reqs|
      invariant m.Valid() && |run| == i + 1 && Follows(run, reqs[..i], ws[..i], outs, m.hasRPCServer) && run[0] == start
      invariant run[i] == Moment(m.View(), m.files, m.retry, run[i].proven)
    {
      var out := m.Reconcile(reqs[i], ws[i]);
      ghost var next := After(run[i], reqs[i], ws[i], out, m.View(), m.files, m.retry, m.hasRPCServer);
      FollowsSnoc(run, reqs, ws, outs, out, next, i, m.hasRPCServer);
      run, outs := run + [next], outs + [out];
    }
    assert reqs[..|reqs|] == reqs && ws[..|ws|] == ws;
  }
}
