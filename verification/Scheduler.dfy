/** Scheduling of Super Borg jobs: one runner, and user requests that interleave
    with it at every unlock (controller/gateway/jobs.go). */
module Scheduler {
  import opened Wrappers

  const MAX_STEPS_PER_RUN: int := 80
  const MAX_ERRORS: int := 5

  datatype Status = Queued | Running | Waiting | Done | Failed | Cancelled

  datatype Info = Info(status: Status, created: int)

  /** Where the runner is: between jobs, holding next's answer, at the head of
      run's loop, inside a step, in the pause after an error, or returning from
      run. n counts step attempts, failures consecutive errors. */
  datatype PC =
    | Idle
    | Picked(id: string)
    | Head(id: string, n: nat, failures: nat)
    | Stepping(id: string, n: nat, failures: nat)
    | Pausing(id: string, n: nat, failures: nat)
    | Leaving(id: string)

  predicate InRun(pc: PC) { !pc.Idle? && !pc.Picked? }

  datatype StepError = BadPool | NoNode | Other

  /** How far a run is from its end; every move of the runner inside a run
      lowers it, so a run makes at most MAX_STEPS_PER_RUN step attempts. */
  function Left(pc: PC): int
  {
    match pc
    case Idle => 0
    case Picked(_) => 0
    case Head(_, n, _) => 3 * (MAX_STEPS_PER_RUN - n) + 2
    case Stepping(_, n, _) => 3 * (MAX_STEPS_PER_RUN - n) + 1
    case Pausing(_, n, _) => 3 * (MAX_STEPS_PER_RUN - n)
    case Leaving(_) => 1
  }

  /** What is always true of the jobs (all that ever existed, and those stored),
      the runner and the cancellations. */
  ghost predicate Sound(jobs: map<string, Info>, stored: set<string>, pc: PC, stopped: bool, live: bool)
  {
    && stored <= jobs.Keys && (!pc.Idle? ==> pc.id in jobs)
    && (pc.Head? ==> pc.n <= MAX_STEPS_PER_RUN) && (pc.Stepping? || pc.Pausing? ==> pc.n < MAX_STEPS_PER_RUN)
    && (live ==> forall id :: id in stored && jobs[id].status == Running ==> InRun(pc) && pc.id == id && !pc.Leaving? && !stopped)
  }

  class Jobs {
    var jobs: map<string, Info>
    var stored: set<string>
    var running: Option<string>
    var pc: PC
    var stopped: bool
    var live: bool
    ghost var attempts: nat // step attempts of the current or last run

    ghost predicate Valid()
      reads this
    {
      && Sound(jobs, stored, pc, stopped, live) && attempts <= MAX_STEPS_PER_RUN
      && (pc.Head? ==> attempts == pc.n) && (pc.Stepping? || pc.Pausing? ==> attempts == pc.n + 1)
      && running == (if InRun(pc) then Some(pc.id) else None)
    }

    ghost function Now(): Moment
      reads this
    {
      Moment((set id | id in stored && id in jobs && jobs[id].status == Running), live)
    }

    /** LoadJobs: whatever was saved; jobs that were running are queued again. */
    constructor (saved: map<string, Info>)
      ensures Valid() && live && pc == Idle && stored == jobs.Keys == saved.Keys
      ensures forall id :: id in saved ==> jobs[id] == saved[id].(status := if saved[id].status == Running then Queued else saved[id].status)
    {
      jobs := map id | id in saved :: saved[id].(status := if saved[id].status == Running then Queued else saved[id].status);
      stored, running, pc, stopped, live, attempts := saved.Keys, None, Idle, false, true, 0;
    }

    // ----- the user ---------------------------------------------------------------

    method Create(id: string, now: int)
      requires Valid() && id !in jobs
      modifies this`jobs, this`stored
      ensures Valid() && jobs == old(jobs)[id := Info(Queued, now)] && stored == old(stored) + {id}
    {
      jobs := jobs[id := Info(Queued, now)];
      stored := stored + {id};
    }

    method Say(id: string) returns (ok: bool)
      requires Valid()
      modifies this`jobs
      ensures Valid() && ok == (id in stored)
      ensures jobs == if ok && old(jobs)[id].status != Running then old(jobs)[id := old(jobs)[id].(status := Queued)] else old(jobs)
    {
      if id !in stored { return false; }
      if jobs[id].status != Running { jobs := jobs[id := jobs[id].(status := Queued)]; }
      ok := true;
    }

    method Cancel(id: string) returns (ok: bool)
      requires Valid()
      modifies this`jobs, this`stopped
      ensures Valid() && ok == (id in stored)
      ensures jobs == if ok then old(jobs)[id := old(jobs)[id].(status := Cancelled)] else old(jobs)
      ensures stopped <==> old(stopped) || (ok && old(jobs)[id].status == Running && running.Some?)
    {
      if id !in stored { return false; }
      if jobs[id].status == Running && running.Some? { stopped := true; }
      jobs := jobs[id := jobs[id].(status := Cancelled)];
      ok := true;
    }

    method Delete(id: string) returns (ok: bool)
      requires Valid()
      modifies this`stored, this`stopped
      ensures Valid() && ok == (id in old(stored)) && stored == old(stored) - {id}
      ensures stopped <==> old(stopped) || (ok && jobs[id].status == Running && running.Some?)
    {
      if id !in stored { return false; }
      if jobs[id].status == Running && running.Some? { stopped := true; }
      stored := stored - {id};
      ok := true;
    }

    /** The controller shuts down. */
    method Shutdown()
      requires Valid()
      modifies this`live
      ensures Valid() && !live
    {
      live := false;
    }

    // ----- the runner ---------------------------------------------------------------

    /** next: the oldest queued job. */
    method Next()
      requires Valid() && pc.Idle?
      modifies this`pc
      ensures Valid()
      ensures if exists id :: id in stored && jobs[id].status == Queued
              then pc.Picked? && pc.id in stored && jobs[pc.id].status == Queued
                   && forall id :: id in stored && jobs[id].status == Queued ==> jobs[pc.id].created <= jobs[id].created
              else pc == Idle
    {
      var best := None;
      var left := stored;
      while left != {}
        invariant left <= stored && pc == old(pc)
        invariant best.None? ==> forall id :: id in stored && id !in left ==> jobs[id].status != Queued
        invariant best.Some? ==> best.value in stored && jobs[best.value].status == Queued
        invariant best.Some? ==> forall id :: id in stored && id !in left && jobs[id].status == Queued ==> jobs[best.value].created <= jobs[id].created
        decreases |left|
      {
        var id :| id in left;
        left := left - {id};
        if jobs[id].status == Queued && (best.None? || jobs[id].created < jobs[best.value].created) { best := Some(id); }
      }
      if best.Some? { pc := Picked(best.value); }
    }

    /** run's first critical section: the job may have changed since next. */
    method Begin()
      requires Valid() && pc.Picked?
      modifies this`pc, this`jobs, this`running, this`stopped, this`attempts
      ensures Valid()
      ensures if old(pc).id in stored && old(jobs)[old(pc).id].status == Queued
              then pc == Head(old(pc).id, 0, 0) && jobs == old(jobs)[old(pc).id := old(jobs)[old(pc).id].(status := Running)] && !stopped
              else pc == Idle && jobs == old(jobs)
    {
      var id := pc.id;
      if id !in stored || jobs[id].status != Queued {
        pc := Idle;
        return;
      }
      jobs := jobs[id := jobs[id].(status := Running)];
      running, stopped, pc, attempts := Some(id), false, Head(id, 0, 0), 0;
    }

    /** The head of run's loop. late: the job's context ended only after it was
        looked at. */
    method Loop(late: bool)
      requires Valid() && pc.Head?
      modifies this`pc, this`jobs, this`attempts
      ensures Valid() && Left(pc) < old(Left(pc)) && attempts == old(attempts) + (if pc.Stepping? then 1 else 0)
      ensures pc.Stepping? ==> pc == Stepping(old(pc).id, old(pc).n, old(pc).failures) && jobs == old(jobs) && jobs[pc.id].status == Running
      ensures pc.Stepping? <==> ((live && !stopped) || late) && old(jobs)[old(pc).id].status == Running && old(pc).n < MAX_STEPS_PER_RUN
      ensures !pc.Stepping? ==> pc == Leaving(old(pc).id)
      ensures jobs == old(jobs) || (old(pc).n == MAX_STEPS_PER_RUN && jobs == old(jobs)[old(pc).id := old(jobs)[old(pc).id].(status := Waiting)])
    {
      var id, n := pc.id, pc.n;
      if (!live || stopped) && !late {
        pc := Leaving(id);
        return;
      }
      if jobs[id].status != Running {
        pc := Leaving(id);
        return;
      }
      if n >= MAX_STEPS_PER_RUN {
        jobs := jobs[id := jobs[id].(status := Waiting)];
        pc := Leaving(id);
        return;
      }
      pc, attempts := Stepping(id, n, pc.failures), attempts + 1;
    }

    /** A tool call inside a step: ask_user and finish end the run's work, even
        when the job was cancelled meanwhile. */
    method ToolStops(status: Status)
      requires Valid() && pc.Stepping? && status in {Waiting, Done}
      modifies this`jobs
      ensures Valid() && jobs == old(jobs)[pc.id := old(jobs)[pc.id].(status := status)]
    {
      jobs := jobs[pc.id := jobs[pc.id].(status := status)];
    }

    method StepDone()
      requires Valid() && pc.Stepping?
      modifies this`pc
      ensures Valid() && Left(pc) < old(Left(pc)) && pc == Head(old(pc).id, old(pc).n + 1, 0)
    {
      pc := Head(pc.id, pc.n + 1, 0);
    }

    /** A step failed: on a wrong pool the job waits, after MAX_ERRORS in a row it
        fails, otherwise it is tried again after a pause. */
    method StepFailed(e: StepError, late: bool)
      requires Valid() && pc.Stepping?
      modifies this`pc, this`jobs
      ensures Valid() && Left(pc) < old(Left(pc))
      ensures (!live || stopped) && !late ==> pc == Leaving(old(pc).id) && jobs == old(jobs)
      ensures ((live && !stopped) || late) ==>
                match e
                case BadPool => pc == Leaving(old(pc).id) && jobs == old(jobs)[old(pc).id := old(jobs)[old(pc).id].(status := Waiting)]
                case NoNode => pc == Pausing(old(pc).id, old(pc).n, old(pc).failures) && jobs == old(jobs)
                case Other =>
                  && pc == Pausing(old(pc).id, old(pc).n, old(pc).failures + 1)
                  && jobs == if pc.failures >= MAX_ERRORS then old(jobs)[pc.id := old(jobs)[pc.id].(status := Failed)] else old(jobs)
    {
      var id, n, failures := pc.id, pc.n, pc.failures;
      if (!live || stopped) && !late {
        pc := Leaving(id);
        return;
      }
      match e {
        case BadPool =>
          jobs := jobs[id := jobs[id].(status := Waiting)];
          pc := Leaving(id);
        case NoNode => pc := Pausing(id, n, failures);
        case Other =>
          failures := failures + 1;
          if failures >= MAX_ERRORS { jobs := jobs[id := jobs[id].(status := Failed)]; }
          pc := Pausing(id, n, failures);
      }
    }

    /** The pause ends by its timer, or because the context ended. */
    method PauseEnds(timer: bool)
      requires Valid() && pc.Pausing? && (timer || !live || stopped)
      modifies this`pc
      ensures Valid() && Left(pc) < old(Left(pc))
      ensures pc == if timer then Head(old(pc).id, old(pc).n + 1, old(pc).failures) else Leaving(old(pc).id)
    {
      pc := if timer then Head(pc.id, pc.n + 1, pc.failures) else Leaving(pc.id);
    }

    /** run returns: while the controller lives, its job is no longer running. */
    method End()
      requires Valid() && pc.Leaving?
      modifies this`pc, this`running
      ensures Valid() && pc == Idle && running.None?
      ensures live && old(pc).id in stored ==> jobs[old(pc).id].status != Running
    {
      running, pc := None, Idle;
    }
  }

  // ----- any interleaving ---------------------------------------------------------------

  datatype Move =
    | MCreate(id: string, now: int) | MSay(id: string) | MCancel(id: string) | MDelete(id: string) | MShutdown
    | MNext | MBegin | MLoop(late: bool) | MToolStops(done: bool) | MStepDone | MStepFailed(e: StepError, late: bool)
    | MPauseEnds(timer: bool) | MEnd

  /** The stored jobs marked running at one moment, and whether the controller
      lives. */
  datatype Moment = Moment(running: set<string>, live: bool)

  /** What one move may do to them: only the beginning of a run marks a job as
      running, and while the controller lives no other one is. */
  ghost predicate Step(m: Move, s: Moment, t: Moment)
  {
    && (t.live <==> s.live && !m.MShutdown?)
    && if m.MBegin? then t.running == s.running || Begun(s, t) else t.running <= s.running
  }

  ghost predicate Begun(s: Moment, t: Moment)
  {
    (s.live ==> s.running == {}) && exists id :: id !in s.running && t.running == s.running + {id}
  }

  /** A run begins while another stored job is still marked running. */
  ghost predicate Overlaps(m: Move, s: Moment, t: Moment)
  {
    m.MBegin? && s.running != {} && t.running != s.running
  }

  ghost predicate TwoRun(s: Moment)
  {
    exists a, b :: a in s.running && b in s.running && a != b
  }

  lemma StepRuns(m: Move, s: Moment, t: Moment)
    requires Step(m, s, t) && !TwoRun(s)
    ensures TwoRun(t) <==> Overlaps(m, s, t)
    ensures Overlaps(m, s, t) ==> !s.live
  {
    if Overlaps(m, s, t) {
      var id :| id !in s.running && t.running == s.running + {id};
      var other :| other in s.running;
      assert other in t.running && id in t.running;
    }
  }

  ghost predicate Follows(moves: seq<Move>, log: seq<Moment>)
  {
    && |log| == |moves| + 1 && log[0] == Moment({}, true)
    && forall i :: 0 <= i < |moves| ==> Step(moves[i], log[i], log[i + 1])
  }

  /** Over every run two stored jobs are ever marked running at once if and only
      if a run began while another stored job was marked running; and the first
      time this happens is after a shutdown. */
  lemma {:induction false} TwoRunningExactly(moves: seq<Move>, log: seq<Moment>, k: nat)
    requires Follows(moves, log) && k <= |moves|
    ensures (exists i :: 0 <= i <= k && TwoRun(log[i])) <==> exists i :: 0 <= i < k && Overlaps(moves[i], log[i], log[i + 1])
    ensures log[k].live ==> !TwoRun(log[k]) && MShutdown !in moves[..k]
  {
    hide Step, Overlaps, TwoRun;
    if k == 0 {
      NoneRuns(log[0]);
    } else {
      TwoRunningExactly(moves, log, k - 1);
      assert Step(moves[k - 1], log[k - 1], log[k - 1 + 1]);
      assert moves[..k] == moves[..k - 1] + [moves[k - 1]];
      LiveStep(moves[k - 1], log[k - 1], log[k]);
      if !TwoRun(log[k - 1]) { StepRuns(moves[k - 1], log[k - 1], log[k]); }
    }
  }

  lemma NoneRuns(s: Moment)
    requires s.running == {}
    ensures !TwoRun(s)
  {
  }

  lemma LiveStep(m: Move, s: Moment, t: Moment)
    requires Step(m, s, t)
    ensures t.live ==> s.live && m != MShutdown
    ensures t.live && Overlaps(m, s, t) ==> !s.live
  {
  }

  predicate ByUser(m: Move) { m.MCreate? || m.MSay? || m.MCancel? || m.MDelete? || m.MShutdown? }

  method DoUser(j: Jobs, m: Move)
    requires j.Valid() && ByUser(m)
    modifies j
    ensures j.Valid() && j.pc == old(j.pc) && Step(m, old(j.Now()), j.Now())
  {
    assert j.stored <= j.jobs.Keys;
    hide Sound, Left;
    var ok;
    match m {
      case MCreate(id, now) => if id !in j.jobs { j.Create(id, now); }
      case MSay(id) => ok := j.Say(id);
      case MCancel(id) => ok := j.Cancel(id);
      case MDelete(id) => ok := j.Delete(id);
      case MShutdown => j.Shutdown();
    }
  }

  /** A move of the runner, if it is possible now. */
  method DoRunner(j: Jobs, m: Move)
    requires j.Valid() && !ByUser(m)
    modifies j
    ensures j.Valid() && Step(m, old(j.Now()), j.Now())
  {
    RunnersJob(j);
    hide Sound, Left;
    match m {
      case MNext => if j.pc.Idle? { j.Next(); }
      case MBegin => if j.pc.Picked? { j.Begin(); }
      case MLoop(late) => if j.pc.Head? { j.Loop(late); }
      case MToolStops(done) => if j.pc.Stepping? { j.ToolStops(if done then Done else Waiting); }
      case MStepDone => if j.pc.Stepping? { j.StepDone(); }
      case MStepFailed(e, late) => if j.pc.Stepping? { j.StepFailed(e, late); }
      case MPauseEnds(timer) => if j.pc.Pausing? && (timer || !j.live || j.stopped) { j.PauseEnds(timer); }
      case MEnd => if j.pc.Leaving? { j.End(); }
    }
  }

  /** While the controller lives, a job marked running is the runner's. */
  lemma RunnersJob(j: Jobs)
    requires j.Valid()
    ensures j.stored <= j.jobs.Keys && (!j.pc.Idle? ==> j.pc.id in j.jobs)
    ensures j.live && !InRun(j.pc) ==> j.Now().running == {}
  {
  }

  /** One move, if it is possible now. */
  method Do(j: Jobs, m: Move)
    requires j.Valid()
    modifies j
    ensures j.Valid() && Step(m, old(j.Now()), j.Now())
    ensures ByUser(m) ==> j.pc == old(j.pc)
  {
    if ByUser(m) { DoUser(j, m); } else { DoRunner(j, m); }
  }

  /** Through any interleaving of users and runner after loading any saved jobs,
      at most one stored job is running while the controller lives; two ever are
      exactly when a run began while another stored job was marked running. */
  method Drive(saved: map<string, Info>, moves: seq<Move>) returns (j: Jobs, ghost log: seq<Moment>)
    ensures fresh(j) && j.Valid()
    ensures j.live ==> forall a :: a in j.stored && j.jobs[a].status == Running ==> j.running == Some(a)
    ensures Follows(moves, log) && log[|moves|] == j.Now()
    ensures (exists i :: 0 <= i <= |moves| && TwoRun(log[i])) <==> exists i :: 0 <= i < |moves| && Overlaps(moves[i], log[i], log[i + 1])
  {
    j := new Jobs(saved);
    log := [j.Now()];
    for i := 0 to |moves|
      invariant fresh(j) && j.Valid() && Follows(moves[..i], log) && log[i] == j.Now()
    {
      hide Sound, Step;
      Do(j, moves[i]);
      log := log + [j.Now()];
    }
    assert moves[..|moves|] == moves;
    TwoRunningExactly(moves, log, |moves|);
  }

  /** How a step goes, and what users do before the runner's next move. */
  datatype Turn = Turn(user: Move, late: bool, asks: bool, failure: Option<StepError>, timer: bool)

  /** A run that has begun always ends: after at most MAX_STEPS_PER_RUN step
      attempts, with its job no longer running, whatever users do meanwhile and
      however its steps go. */
  method RunOut(j: Jobs, turn: nat -> Turn)
    requires j.Valid() && InRun(j.pc)
    modifies j
    ensures j.Valid() && j.pc == Idle && j.attempts <= MAX_STEPS_PER_RUN
    ensures j.live && old(j.pc).id in j.stored ==> j.jobs[old(j.pc).id].status != Running
  {
    var k := 0;
    while !j.pc.Leaving?
      invariant j.Valid() && InRun(j.pc) && j.pc.id == old(j.pc).id
      decreases Left(j.pc)
    {
      hide Sound;
      var user := turn(k).user;
      if ByUser(user) { DoUser(j, user); }
      Advance(j, turn(k));
      k := k + 1;
    }
    j.End();
  }

  method Advance(j: Jobs, t: Turn)
    requires j.Valid() && InRun(j.pc) && !j.pc.Leaving?
    modifies j
    ensures j.Valid() && InRun(j.pc) && j.pc.id == old(j.pc).id && Left(j.pc) < old(Left(j.pc))
  {
    hide Sound, Left;
    match j.pc {
      case Head(_, _, _) => j.Loop(t.late);
      case Stepping(_, _, _) =>
        if t.asks { j.ToolStops(Waiting); }
        if t.failure.Some? { j.StepFailed(t.failure.value, t.late); } else { j.StepDone(); }
      case Pausing(_, _, _) => j.PauseEnds(t.timer || (j.live && !j.stopped));
    }
  }

  /** A job runs and another one is queued when the controller shuts down. */
  method StoppedWhileRunning() returns (j: Jobs)
    ensures fresh(j) && j.Valid() && !j.live && j.pc == Idle && j.stored == j.jobs.Keys == {"a", "b"}
    ensures j.jobs["a"].status == Running && j.jobs["b"].status == Queued
  {
    hide Sound, Left;
    j := new Jobs(map[]);
    j.Create("a", 1);
    j.Create("b", 2);
    assert "a" in j.stored && j.jobs["a"].status == Queued;
    j.Next();
    assert j.pc == Picked("a");
    j.Begin();
    j.Shutdown();
    j.Loop(false);
    j.End();
  }

  /** On shutdown the runner still takes the next queued job: idle, with a
      stored job still marked running and another one queued, its next two moves
      mark a second job as running. */
  method NextAfterShutdown(j: Jobs, ghost first: string)
    requires j.Valid() && !j.live && j.pc.Idle? && first in j.stored && j.jobs[first].status == Running
    requires exists id :: id in j.stored && j.jobs[id].status == Queued
    modifies j
    ensures j.Valid() && j.stored == old(j.stored) && first in j.Now().running && TwoRun(j.Now())
  {
    hide Sound, Left;
    j.Next();
    ghost var second := j.pc.id;
    j.Begin();
    RunnersJob(j);
    assert first in j.Now().running && second in j.Now().running;
  }

  /** That state is reached: a job runs and another one is queued when the
      controller shuts down. */
  method TwoRunningAfterShutdown() returns (j: Jobs)
    ensures fresh(j) && j.Valid() && TwoRun(j.Now())
  {
    j := StoppedWhileRunning();
    assert "b" in j.stored && j.jobs["b"].status == Queued;
    NextAfterShutdown(j, "a");
  }
}
