/** A Super Borg job's workspace under arbitrary tool calls
    (controller/gateway/jobs.go). */
module Workspace {
  import opened Ordering
  import opened Text
  import opened JobNames
  import opened Wrappers

  const RECENT_STEPS: int := 6
  const MAX_EVENTS: int := 500
  const MAX_NO_TOOL: int := 3

  datatype Status = Queued | Running | Waiting | Done | Failed | Cancelled

  datatype Task = Task(id: nat, title: string, doc: string, done: bool)

  datatype Doc = Doc(name: string, text: string, author: string)

  datatype Kind = OnUser | OnPlan | OnDelegate | OnWorker | OnDoc | OnRead | OnAsk | OnFinish | OnError

  datatype Event = Event(seq_: nat, kind: Kind, text: string)

  datatype PlanTask = PlanTask(title: string, doc: string)

  datatype Subtask = Subtask(task: string, context: seq<string>, saveAs: string)

  /** Parsed arguments of a tool call; tasks or subtasks is None when the field
      does not parse. */
  datatype Args = Args(tasks: Option<seq<PlanTask>>, subtasks: Option<seq<Subtask>>, name: string, text: string,
                       question: string, summary: string, docs: seq<string>)

  datatype Tool = PlanTasks | WriteDoc | ReadDoc | AskUser | Finish | Delegate | NoTool | OtherTool(name: string)

  datatype Call = Call(tool: Tool, raw: string)

  datatype TaskResult = NotStarted(name: string, missing: string) | WorkerFailed(name: string) | Wrote(name: string)

  datatype Why = PlanIsSet | NoTasks | NoText | NoSuchDoc | NoWorkers | BadArguments | UnknownTool | SameCall | NoCall

  datatype Reply =
    | Rejected(why: Why)
    | PlanSet(added: int, kept: int)
    | Saved(name: string)
    | Contents(doc: Doc)
    | Asked
    | NotFinished
    | Finished
    | Results(results: seq<TaskResult>)

  datatype Step = Step(n: nat, call: Call, reply: Reply)

  /** What matters to the finish check. */
  datatype Mark = DocSaved | FinishRefused | FinishAccepted | UserSpoke

  // ----- documents ----------------------------------------------------------------

  ghost predicate Exists(docs: seq<Doc>, name: string) { exists d :: d in docs && d.name == name }

  ghost predicate UniqueDocs(docs: seq<Doc>)
  {
    forall i, j :: 0 <= i < |docs| && 0 <= j < |docs| && docs[i].name == docs[j].name ==> i == j
  }

  method FindDoc(docs: seq<Doc>, name: string) returns (i: int)
    ensures -1 <= i < |docs| && (i >= 0 <==> Exists(docs, name))
    ensures i >= 0 ==> docs[i].name == name && forall k :: 0 <= k < i ==> docs[k].name != name
  {
    i := 0;
    while i < |docs|
      invariant 0 <= i <= |docs| && forall k :: 0 <= k < i ==> docs[k].name != name
    {
      if docs[i].name == name {
          return;
      }
      i := i + 1;
    }
    i := -1;
  }

  /** docs after saving d: replaced in place, or appended. */
  ghost predicate Stored(docs: seq<Doc>, d: Doc, after: seq<Doc>)
  {
    if Exists(docs, d.name) then exists i :: 0 <= i < |docs| && docs[i].name == d.name && after == docs[i := d]
    else after == docs + [d]
  }

  lemma StoredKeeps(docs: seq<Doc>, d: Doc, after: seq<Doc>)
    requires UniqueDocs(docs) && Stored(docs, d, after)
    ensures UniqueDocs(after) && Exists(after, d.name)
    ensures forall n :: Exists(after, n) <==> Exists(docs, n) || n == d.name
  {
    if Exists(docs, d.name) {
      var i :| 0 <= i < |docs| && docs[i].name == d.name && after == docs[i := d];
      assert after[i] == d;
      forall n | Exists(docs, n) ensures Exists(after, n) {
        var k :| 0 <= k < |docs| && docs[k].name == n;
        assert after[k].name == n;
      }
      forall n | Exists(after, n) ensures Exists(docs, n) {
        var k :| 0 <= k < |after| && after[k].name == n;
        assert docs[k].name == n;
      }
    } else {
      assert after[|docs|] == d;
      forall k | 0 <= k < |docs| ensures docs[k].name != d.name { assert docs[k] in docs; }
    }
  }

  /** The document of that name. */
  ghost function Found(docs: seq<Doc>, name: string): Option<Doc>
  {
    if exists d :: d in docs && d.name == name then
      var d :| d in docs && d.name == name;
      Some(d)
    else None
  }

  lemma FoundIs(docs: seq<Doc>, d: Doc)
    requires UniqueDocs(docs) && d in docs
    ensures Found(docs, d.name) == Some(d)
  {
  }

  /** Saving a document changes what is found under its name, and nothing else. */
  lemma StoredFinds(docs: seq<Doc>, d: Doc, after: seq<Doc>, n: string)
    requires UniqueDocs(docs) && Stored(docs, d, after)
    ensures Found(after, n) == if n == d.name then Some(d) else Found(docs, n)
  {
    StoredKeeps(docs, d, after);
    if Exists(docs, d.name) {
      var i :| 0 <= i < |docs| && docs[i].name == d.name && after == docs[i := d];
      assert after[i] == d;
      if n == d.name {
        FoundIs(after, d);
      } else if Exists(docs, n) {
        var k :| 0 <= k < |docs| && docs[k].name == n;
        assert after[k] == docs[k];
        FoundIs(docs, docs[k]);
        FoundIs(after, after[k]);
      } else {
        assert !Exists(after, n);
      }
    } else {
      assert after[|docs|] == d;
      FoundIs(after, d);
      if n != d.name && Exists(docs, n) {
        var k :| 0 <= k < |docs| && docs[k].name == n;
        assert after[k] == docs[k];
        FoundIs(docs, docs[k]);
        FoundIs(after, after[k]);
      } else if n != d.name {
        assert !Exists(after, n);
      }
    }
  }

  // ----- tasks ----------------------------------------------------------------------

  /** Ids 1..n, and every document produced by one task only. */
  ghost predicate TasksOk(tasks: seq<Task>)
  {
    && (forall i :: 0 <= i < |tasks| ==> tasks[i].id == i + 1)
    && NoTaskTwice(tasks)
  }

  ghost predicate NoTaskTwice(tasks: seq<Task>)
  {
    forall i, j :: 0 <= i < |tasks| && 0 <= j < |tasks| && tasks[i].doc == tasks[j].doc != "" ==> i == j
  }

  ghost predicate DoneExist(tasks: seq<Task>, docs: seq<Doc>)
  {
    forall t :: t in tasks && t.done ==> t.doc != "" && Exists(docs, t.doc)
  }

  function Marked(t: Task, name: string): Task { if t.doc == name then t.(done := true) else t }

  /** A finished document completes the tasks that produce it. */
  ghost predicate MarkedDone(tasks: seq<Task>, name: string, after: seq<Task>)
  {
    |after| == |tasks| && forall i :: 0 <= i < |tasks| ==> after[i] == if tasks[i].doc == name then tasks[i].(done := true) else tasks[i]
  }

  predicate IsDone(t: Task) { t.done }

  /** A task of the new plan is taken unless it has no title or another task
      already produces its document. */
  predicate Fresh(kept: seq<Task>, p: PlanTask)
  {
    TrimSpace(p.title) != "" && (DocName(p.doc) == "" || forall t :: t in kept ==> t.doc != DocName(p.doc))
  }

  function Planned(kept: seq<Task>, plan: seq<PlanTask>): seq<Task>
  {
    if plan == [] then kept
    else
      var before := Planned(kept, plan[..|plan| - 1]);
      var p := plan[|plan| - 1];
      if Fresh(before, p) then before + [Task(0, TrimSpace(p.title), DocName(p.doc), false)] else before
  }

  function Renumbered(tasks: seq<Task>): (r: seq<Task>)
    ensures |r| == |tasks| && forall i :: 0 <= i < |r| ==> r[i] == tasks[i].(id := i + 1)
  {
    seq(|tasks|, i requires 0 <= i < |tasks| => tasks[i].(id := i + 1))
  }

  lemma {:induction false} PlannedKeeps(kept: seq<Task>, plan: seq<PlanTask>)
    requires NoTaskTwice(kept)
    ensures var r := Planned(kept, plan);
            && NoTaskTwice(r) && kept <= r && (forall i :: |kept| <= i < |r| ==> !r[i].done)
            && (forall p :: p in plan && TrimSpace(p.title) != "" && DocName(p.doc) != "" ==> exists t :: t in r && t.doc == DocName(p.doc))
  {
    if plan != [] {
      var init, p := plan[..|plan| - 1], plan[|plan| - 1];
      PlannedKeeps(kept, init);
      var before, r := Planned(kept, init), Planned(kept, plan);
      hide Planned, DocName, TrimSpace;
      assert forall t :: t in before ==> t in r;
      if Fresh(before, p) {
        assert r[|before|] in r;
        assert forall i :: 0 <= i < |before| ==> before[i] in before;
      }
      assert forall q :: q in plan ==> q in init || q == p;
    }
  }

  // ----- events, steps and the finish check --------------------------------------------

  /** events are the last MAX_EVENTS of everything ever logged, numbered from 1. */
  ghost predicate EventsOk(events: seq<Event>, logged: seq<Event>)
  {
    events == Last(logged, MAX_EVENTS) && forall i :: 0 <= i < |logged| ==> logged[i].seq_ == i + 1
  }

  /** recent are the last RECENT_STEPS of all steps ever made, numbered from 1. */
  ghost predicate RecentOk(recent: seq<Step>, past: seq<Step>)
  {
    recent == Last(past, RECENT_STEPS) && forall i :: 0 <= i < |past| ==> past[i].n == i + 1
  }

  /** The log with one more event. */
  ghost function Logged(logged: seq<Event>, kind: Kind, text: string): seq<Event>
  {
    logged + [Event(|logged| + 1, kind, text)]
  }

  /** The number that event gives the next event is the next number. */
  lemma NextSeq(events: seq<Event>, logged: seq<Event>)
    requires EventsOk(events, logged)
    ensures (if events != [] then events[|events| - 1].seq_ + 1 else 1) == |logged| + 1
  {
  }

  lemma EventsSnoc(events: seq<Event>, logged: seq<Event>, e: Event)
    requires EventsOk(events, logged) && e.seq_ == |logged| + 1
    ensures EventsOk(Last(events + [e], MAX_EVENTS), logged + [e])
  {
    LastAppend(logged, [e], MAX_EVENTS);
  }

  lemma RecentSnoc(recent: seq<Step>, past: seq<Step>, s: Step)
    requires RecentOk(recent, past) && s.n == |past| + 1
    ensures RecentOk(Last(recent + [s], RECENT_STEPS), past + [s])
  {
    LastAppend(past, [s], RECENT_STEPS);
  }

  /** finish was refused and no document has been saved since. */
  ghost predicate WasAsked(marks: seq<Mark>)
  {
    marks != [] && match marks[|marks| - 1]
                   case DocSaved => false
                   case FinishRefused => true
                   case _ => WasAsked(marks[..|marks| - 1])
  }

  /** Every accepted finish was checked. */
  ghost predicate FinishesChecked(marks: seq<Mark>)
  {
    forall i :: 0 <= i < |marks| && marks[i] == FinishAccepted ==> WasAsked(marks[..i])
  }

  /** In words: a refused finish comes before, and no document in between. */
  lemma {:induction false} WasAskedMeans(marks: seq<Mark>)
    ensures WasAsked(marks) <==>
            exists i :: 0 <= i < |marks| && marks[i] == FinishRefused && forall k :: i < k < |marks| ==> marks[k] != DocSaved
  {
    if marks != [] {
      var init := marks[..|marks| - 1];
      WasAskedMeans(init);
      if WasAsked(init) && marks[|marks| - 1] != DocSaved {
        var i :| 0 <= i < |init| && init[i] == FinishRefused && forall k :: i < k < |init| ==> init[k] != DocSaved;
        assert marks[i] == FinishRefused;
        assert forall k :: i < k < |init| ==> marks[k] == init[k];
      }
      if i :| 0 <= i < |marks| && marks[i] == FinishRefused && forall k :: i < k < |marks| ==> marks[k] != DocSaved {
        if i < |init| {
          assert init[i] == FinishRefused && forall k :: i < k < |init| ==> init[k] == marks[k];
        }
      }
    }
  }

  lemma CheckedSnoc(marks: seq<Mark>, m: Mark)
    requires FinishesChecked(marks) && (m == FinishAccepted ==> WasAsked(marks))
    ensures FinishesChecked(marks + [m])
    ensures WasAsked(marks + [m]) <==> m == FinishRefused || (m != DocSaved && WasAsked(marks))
  {
    var more := marks + [m];
    assert more[..|marks|] == marks;
    forall i | 0 <= i < |more| && more[i] == FinishAccepted ensures WasAsked(more[..i]) {
      assert more[..i] == marks[..i];
    }
  }

  /** The check survives the job: once a finish was accepted, the first finish
      of any later run is accepted without comparing with the goal, exactly when
      no document was saved in between. */
  lemma {:induction false} SecondFinishIsUnchecked(marks: seq<Mark>, later: seq<Mark>)
    requires WasAsked(marks) && FinishRefused !in later
    ensures WasAsked(marks + [FinishAccepted] + later) <==> DocSaved !in later
  {
    var done := marks + [FinishAccepted];
    if later == [] {
      assert done + later == done && done[..|marks|] == marks;
    } else {
      var init, last := later[..|later| - 1], later[|later| - 1];
      SecondFinishIsUnchecked(marks, init);
      assert later == init + [last];
      assert (done + later)[..|done + later| - 1] == done + init;
    }
  }

  // ----- the job ---------------------------------------------------------------------------

  lemma MarkedKeeps(tasks: seq<Task>, docs: seq<Doc>, name: string, tasks': seq<Task>, docs': seq<Doc>)
    requires TasksOk(tasks) && DoneExist(tasks, docs) && MarkedDone(tasks, name, tasks') && name != ""
    requires forall n :: Exists(docs', n) <==> Exists(docs, n) || n == name
    ensures TasksOk(tasks') && DoneExist(tasks', docs')
  {
    hide Exists;
    forall t | t in tasks' && t.done ensures t.doc != "" && Exists(docs', t.doc) {
      var i :| 0 <= i < |tasks'| && tasks'[i] == t;
      assert tasks[i] in tasks && t == Marked(tasks[i], name);
    }
  }

  /** The tasks of a new plan: the finished ones, then the new ones. */
  ghost function NewPlan(tasks: seq<Task>, plan: seq<PlanTask>): seq<Task>
  {
    Renumbered(Planned(Filter(IsDone, tasks), plan))
  }

  lemma {:induction false} FilterTasks(tasks: seq<Task>)
    requires NoTaskTwice(tasks)
    ensures NoTaskTwice(Filter(IsDone, tasks))
  {
    hide Filter;
    if tasks != [] {
      var init, last := tasks[..|tasks| - 1], tasks[|tasks| - 1];
      FilterTasks(init);
      var f := Filter(IsDone, init);
      FilterSnoc(IsDone, init, last);
      assert tasks == init + [last];
      forall t | t in f && t.doc == last.doc ensures t.doc == "" {
        var i :| 0 <= i < |init| && init[i] == t;
        assert tasks[i] == t && tasks[|tasks| - 1] == last;
      }
      if last.done { TaskSnoc(f, last); }
      assert f + [] == f;
    }
  }

  lemma TaskSnoc(tasks: seq<Task>, t: Task)
    requires NoTaskTwice(tasks) && forall x :: x in tasks && x.doc == t.doc ==> x.doc == ""
    ensures NoTaskTwice(tasks + [t])
  {
    assert forall i :: 0 <= i < |tasks| ==> tasks[i] in tasks;
  }

  lemma NewPlanIs(tasks: seq<Task>, plan: seq<PlanTask>)
    ensures NewPlan(tasks, plan) == Renumbered(Planned(Filter(IsDone, tasks), plan))
    ensures |NewPlan(tasks, plan)| == |Planned(Filter(IsDone, tasks), plan)|
  {
  }

  lemma NewPlanKeeps(tasks: seq<Task>, docs: seq<Doc>, plan: seq<PlanTask>)
    requires TasksOk(tasks) && DoneExist(tasks, docs)
    ensures TasksOk(NewPlan(tasks, plan)) && DoneExist(NewPlan(tasks, plan), docs)
  {
    FilterTasks(tasks);
    var kept := Filter(IsDone, tasks);
    PlannedKeeps(kept, plan);
    var p, r := Planned(kept, plan), NewPlan(tasks, plan);
    hide Planned, Exists, Filter;
    forall t | t in r && t.done ensures t.doc != "" && Exists(docs, t.doc) {
      var i :| 0 <= i < |r| && r[i] == t;
      assert p[i].done && p[i] == kept[i];
      assert kept[i] in kept;
    }
  }

  /** seen are the documents that these tasks produce. */
  ghost predicate AreDocs(seen: set<string>, tasks: seq<Task>)
  {
    forall n :: n in seen <==> exists t :: t in tasks && t.doc == n
  }

  lemma NoDocs()
    ensures AreDocs({}, [])
  {
  }

  lemma SeenSnoc(kept: seq<Task>, seen: set<string>, t: Task)
    requires AreDocs(seen, kept)
    ensures AreDocs(seen + {t.doc}, kept + [t])
  {
    forall n ensures n in seen + {t.doc} <==> exists x :: x in kept + [t] && x.doc == n {
      if n == t.doc { assert t in kept + [t]; }
      if n in seen {
        var x :| x in kept && x.doc == n;
        assert x in kept + [t];
      }
    }
  }

  /** A task will produce the document, which does not exist yet. */
  ghost predicate Lacks(docs: seq<Doc>, tasks: seq<Task>, name: string)
  {
    !Exists(docs, name) && exists t :: t in tasks && t.doc == name
  }

  /** The first context document that is lacked is the one at k. */
  ghost predicate FirstLacked(docs: seq<Doc>, tasks: seq<Task>, context: seq<string>, k: int)
  {
    0 <= k < |context| && Lacks(docs, tasks, DocName(context[k])) && forall j :: 0 <= j < k ==> !Lacks(docs, tasks, DocName(context[j]))
  }

  /** name is the first lacked document's, or "" if none is lacked. */
  ghost predicate IsFirstLacked(docs: seq<Doc>, tasks: seq<Task>, context: seq<string>, name: string)
  {
    if exists k :: FirstLacked(docs, tasks, context, k) then exists k :: FirstLacked(docs, tasks, context, k) && name == DocName(context[k])
    else name == "" && forall c :: c in context ==> !Lacks(docs, tasks, DocName(c))
  }

  /** A task may start although a document it needs is still to be written: a
      task of the plan without a document makes "" such a document, and an entry
      of the context without a letter names it.  Exactly when such an entry
      comes before every other lacked document. */
  lemma UnnamedHidesLacked(docs: seq<Doc>, tasks: seq<Task>, context: seq<string>, name: string)
    requires IsFirstLacked(docs, tasks, context, name)
    ensures (name == "" && exists k :: LackedByName(docs, tasks, context, k))
            <==> exists j, k :: LackedByName(docs, tasks, context, k) && 0 <= j < k && FirstLacked(docs, tasks, context, j) && DocName(context[j]) == ""
  {
    hide DocName, Lacks;
    if name == "" {
      if k :| LackedByName(docs, tasks, context, k) {
        assert context[k] in context;
        var j :| FirstLacked(docs, tasks, context, j) && name == DocName(context[j]);
        assert j < k;
      }
    }
  }

  ghost predicate LackedByName(docs: seq<Doc>, tasks: seq<Task>, context: seq<string>, k: int)
  {
    0 <= k < |context| && DocName(context[k]) != "" && Lacks(docs, tasks, DocName(context[k]))
  }

  // ----- what a tool call does ---------------------------------------------------------------

  /** Answer i of a delegation is saved: its task was started and answered, and
      is not among those still awaited. */
  ghost predicate Saves(missing: seq<string>, answer: nat -> Option<string>, left: set<int>, i: int)
  {
    0 <= i < |missing| && i !in left && missing[i] == "" && answer(i).Some? && answer(i).value != ""
  }

  /** The answers that are not awaited are in documents of their own, whose tasks
      are complete; nothing else has changed. */
  ghost predicate Collected(docs: seq<Doc>, tasks: seq<Task>, docs': seq<Doc>, tasks': seq<Task>, names: seq<string>, missing: seq<string>,
                            answer: nat -> Option<string>, author: nat -> string, left: set<int>)
    requires |names| == |missing|
  {
    && (forall i :: Saves(missing, answer, left, i) ==> Found(docs', names[i]) == Some(Doc(names[i], answer(i).value, author(i))))
    && (forall n :: (forall i :: Saves(missing, answer, left, i) ==> names[i] != n) ==> Found(docs', n) == Found(docs, n))
    && |tasks'| == |tasks|
    && forall k :: 0 <= k < |tasks| ==>
         tasks'[k] == if exists i :: Saves(missing, answer, left, i) && names[i] == tasks[k].doc then tasks[k].(done := true) else tasks[k]
  }

  /** Before any answer arrives nothing is saved: the tasks that were not started
      never save anything. */
  lemma NoneCollected(docs: seq<Doc>, tasks: seq<Task>, names: seq<string>, missing: seq<string>, answer: nat -> Option<string>, author: nat -> string, left: set<int>)
    requires |names| == |missing| && forall i :: 0 <= i < |names| && missing[i] == "" ==> i in left
    ensures Collected(docs, tasks, docs, tasks, names, missing, answer, author, left)
  {
    assert forall i :: !Saves(missing, answer, left, i);
    hide Found;
  }

  lemma CollectSkip(docs: seq<Doc>, tasks: seq<Task>, docs1: seq<Doc>, tasks1: seq<Task>, names: seq<string>, missing: seq<string>,
                    answer: nat -> Option<string>, author: nat -> string, left: set<int>, i: nat)
    requires |names| == |missing| && !Answered(answer(i))
    requires Collected(docs, tasks, docs1, tasks1, names, missing, answer, author, left)
    ensures Collected(docs, tasks, docs1, tasks1, names, missing, answer, author, left - {i})
  {
    assert forall k :: Saves(missing, answer, left - {i}, k) <==> Saves(missing, answer, left, k);
    hide Found;
  }

  lemma CollectStep(docs: seq<Doc>, tasks: seq<Task>, docs1: seq<Doc>, tasks1: seq<Task>, docs2: seq<Doc>, tasks2: seq<Task>, names: seq<string>,
                    missing: seq<string>, answer: nat -> Option<string>, author: nat -> string, left: set<int>, i: nat)
    requires |names| == |missing| && StartedDiffer(names, missing) && i < |names| && i in left && missing[i] == "" && Answered(answer(i)) && UniqueDocs(docs1)
    requires Collected(docs, tasks, docs1, tasks1, names, missing, answer, author, left)
    requires Stored(docs1, Doc(names[i], answer(i).value, author(i)), docs2) && MarkedDone(tasks1, names[i], tasks2)
    ensures Collected(docs, tasks, docs2, tasks2, names, missing, answer, author, left - {i})
  {
    var d, now := Doc(names[i], answer(i).value, author(i)), left - {i};
    forall n ensures Found(docs2, n) == if n == d.name then Some(d) else Found(docs1, n) { StoredFinds(docs1, d, docs2, n); }
    hide Found, Stored, UniqueDocs;
    assert forall k :: Saves(missing, answer, now, k) <==> Saves(missing, answer, left, k) || k == i;
    assert forall k :: Saves(missing, answer, left, k) ==> names[k] != names[i];
    hide Saves, StartedDiffer;
    assert Saves(missing, answer, now, i);
    forall n | forall k :: Saves(missing, answer, now, k) ==> names[k] != n ensures Found(docs2, n) == Found(docs, n) {
      assert n != names[i];
      assert forall k :: Saves(missing, answer, left, k) ==> Saves(missing, answer, now, k) && names[k] != n;
    }
    forall k | 0 <= k < |tasks|
      ensures tasks2[k] == if exists j :: Saves(missing, answer, now, j) && names[j] == tasks[k].doc then tasks[k].(done := true) else tasks[k]
    {
      assert tasks2[k] == Marked(tasks1[k], names[i]);
    }
  }

  /** What a tool call may change. */
  datatype Work = Work(status: Status, question: string, tasks: seq<Task>, docs: seq<Doc>, result: seq<string>, summary: string,
                       messages: seq<string>, plannedAt: nat, marks: seq<Mark>)

  /** The named documents that exist, in the order named. */
  ghost function Listed(docs: seq<Doc>, names: seq<string>): seq<string>
  {
    if names == [] then []
    else
      var n := DocName(names[|names| - 1]);
      Listed(docs, names[..|names| - 1]) + (if Exists(docs, n) then [n] else [])
  }

  ghost predicate PlanCall(plan: Option<seq<PlanTask>>, canPlan: bool, w: Work, w': Work, reply: Reply)
  {
    if !canPlan || plan.None? || plan.value == [] then reply.Rejected? && w' == w
    else
      var kept := |Filter(IsDone, w.tasks)|;
      w' == w.(tasks := NewPlan(w.tasks, plan.value), plannedAt := |w.messages|) && reply == PlanSet(|w'.tasks| - kept, kept)
  }

  ghost predicate WriteCall(name: string, text: string, w: Work, w': Work, reply: Reply)
  {
    if DocName(name) == "" || TrimSpace(text) == "" then reply == Rejected(NoText) && w' == w
    else
      && reply == Saved(DocName(name)) && w' == w.(docs := w'.docs, tasks := w'.tasks, marks := w.marks + [DocSaved])
      && Stored(w.docs, Doc(DocName(name), text, "orchestrator"), w'.docs) && MarkedDone(w.tasks, DocName(name), w'.tasks)
  }

  ghost predicate ReadCall(name: string, w: Work, w': Work, reply: Reply)
  {
    w' == w && reply == match Found(w.docs, DocName(name)) case None => Rejected(NoSuchDoc) case Some(d) => Contents(d)
  }

  ghost predicate FinishCall(names: seq<string>, text: string, w: Work, w': Work, reply: Reply)
  {
    if WasAsked(w.marks)
    then reply == Finished && w' == w.(status := Done, result := Listed(w.docs, names), summary := TrimSpace(text), marks := w.marks + [FinishAccepted])
    else reply == NotFinished && w' == w.(marks := w.marks + [FinishRefused])
  }

  /** Every answer is in a document of its own, every task that was not started
      is told the first document it lacks, and nothing else has changed. */
  ghost predicate Delegated(subtasks: seq<Subtask>, names: seq<string>, missing: seq<string>, answer: nat -> Option<string>, author: nat -> string,
                            w: Work, w': Work, reply: Reply)
  {
    && reply.Results? && |names| == |missing| == |subtasks| == |reply.results| && StartedDiffer(names, missing)
    && (forall i :: 0 <= i < |names| ==> IsFirstLacked(w.docs, w.tasks, subtasks[i].context, missing[i]))
    && (forall i :: 0 <= i < |names| ==>
          reply.results[i] == if missing[i] != "" then NotStarted(DocName(subtasks[i].saveAs), missing[i])
                              else if answer(i).Some? && answer(i).value != "" then Wrote(names[i]) else WorkerFailed(names[i]))
    && Collected(w.docs, w.tasks, w'.docs, w'.tasks, names, missing, answer, author, {})
    && w' == w.(docs := w'.docs, tasks := w'.tasks, marks := w'.marks) && w.marks <= w'.marks
  }

  ghost predicate DelegateCall(subtasks: Option<seq<Subtask>>, workers: nat, answer: nat -> Option<string>, author: nat -> string, w: Work, w': Work, reply: Reply)
  {
    if workers == 0 || subtasks.None? || subtasks.value == [] then reply.Rejected? && w' == w
    else exists names, missing :: Delegated(subtasks.value, names, missing, answer, author, w, w', reply)
  }

  /** What a call of this tool does, for each tool. */
  ghost predicate Did(tool: Tool, args: Option<Args>, canPlan: bool, workers: nat, answer: nat -> Option<string>, author: nat -> string,
                      w: Work, w': Work, reply: Reply)
  {
    if args.None? then reply == Rejected(BadArguments) && w' == w
    else
      var a := args.value;
      match tool
      case PlanTasks => PlanCall(a.tasks, canPlan, w, w', reply)
      case WriteDoc => WriteCall(a.name, a.text, w, w', reply)
      case ReadDoc => ReadCall(a.name, w, w', reply)
      case AskUser => w' == w.(status := Waiting, question := TrimSpace(a.question)) && reply == Asked
      case Finish => FinishCall(a.docs, a.summary, w, w', reply)
      case Delegate => DelegateCall(a.subtasks, workers, answer, author, w, w', reply)
      case _ => reply == Rejected(UnknownTool) && w' == w
  }

  /** The same call as the previous step; confirming a finish may repeat. */
  predicate IsRepeat(past: seq<Step>, call: Call)
  {
    call.tool != Finish && past != [] && past[|past| - 1].call == call
  }

  lemma RecentRepeats(recent: seq<Step>, past: seq<Step>, call: Call)
    requires RecentOk(recent, past)
    ensures IsRepeat(recent, call) <==> IsRepeat(past, call)
  {
  }

  /** The surroundings of one orchestrator answer. */
  datatype Around = Around(parse: string -> Option<Args>, canPlan: bool, workers: nat, answers: nat -> nat -> Option<string>, author: nat -> string)

  /** Call k of an answer, after the steps so far: it does what its tool does,
      unless it repeats the step before. */
  ghost predicate Ran(call: Call, k: nat, a: Around, past: seq<Step>, w: Work, w': Work, reply: Reply)
  {
    if IsRepeat(past, call) then reply == Rejected(SameCall) && w' == w
    else Did(call.tool, a.parse(call.raw), a.canPlan, a.workers, a.answers(k), a.author, w, w', reply)
  }

  /** works is the job before and after each of the calls handled, whose replies
      are in the steps from before on. */
  ghost predicate Handled(calls: seq<Call>, a: Around, before: seq<Step>, past: seq<Step>, works: seq<Work>)
  {
    && |works| >= 1 && |works| - 1 <= |calls| && |past| == |before| + |works| - 1 && before <= past
    && forall k :: 0 <= k < |works| - 1 ==> HandledAt(calls, a, |before|, past, works, k)
  }

  ghost predicate HandledAt(calls: seq<Call>, a: Around, first: nat, past: seq<Step>, works: seq<Work>, k: int)
    requires |past| == first + |works| - 1 && 0 <= k < |works| - 1 <= |calls|
  {
    && past[first + k].n == first + k + 1 && past[first + k].call == calls[k]
    && Ran(calls[k], k, a, past[..first + k], works[k], works[k + 1], past[first + k].reply)
  }

  lemma HandledKept(calls: seq<Call>, a: Around, first: nat, past: seq<Step>, works: seq<Work>, s: Step, w: Work, k: int)
    requires |past| == first + |works| - 1 && 0 <= k < |works| - 1 < |calls| && HandledAt(calls, a, first, past, works, k)
    ensures HandledAt(calls, a, first, past + [s], works + [w], k)
  {
    hide Ran;
    assert (past + [s])[..first + k] == past[..first + k];
  }

  lemma HandledSnoc(calls: seq<Call>, a: Around, before: seq<Step>, past: seq<Step>, works: seq<Work>, w: Work, reply: Reply)
    requires Handled(calls, a, before, past, works) && |works| <= |calls|
    requires Ran(calls[|works| - 1], |works| - 1, a, past, works[|works| - 1], w, reply)
    ensures Handled(calls, a, before, past + [Step(|past| + 1, calls[|works| - 1], reply)], works + [w])
  {
    var s, n := Step(|past| + 1, calls[|works| - 1], reply), |works| - 1;
    assert (past + [s])[..|past|] == past;
    assert HandledAt(calls, a, |before|, past + [s], works + [w], n);
    hide Ran, HandledAt;
    forall k | 0 <= k < n ensures HandledAt(calls, a, |before|, past + [s], works + [w], k) {
      HandledKept(calls, a, |before|, past, works, s, w, k);
    }
  }

  /** How a call changes the job's status. */
  lemma DidStatus(tool: Tool, args: Option<Args>, canPlan: bool, workers: nat, answer: nat -> Option<string>, author: nat -> string,
                  w: Work, w': Work, reply: Reply)
    requires Did(tool, args, canPlan, workers, answer, author, w, w', reply)
    ensures w'.status == if reply == Finished then Done else if reply == Asked then Waiting else w.status
    ensures reply == Finished ==> w'.marks == w.marks + [FinishAccepted]
  {
    hide WasAsked, Collected, NewPlan, Stored, DocName, TrimSpace, Found, IsFirstLacked, StartedDiffer, Listed;
  }

  /** reply says that a document of this name was written. */
  predicate Writes(reply: Reply, name: string)
  {
    reply == Saved(name) || (reply.Results? && Wrote(name) in reply.results)
  }

  /** A call that did not write the document leaves it alone. */
  lemma OthersLeaveDocs(call: Call, k: nat, a: Around, past: seq<Step>, w: Work, w': Work, reply: Reply, name: string)
    requires Ran(call, k, a, past, w, w', reply) && UniqueDocs(w.docs) && !Writes(reply, name)
    ensures Found(w'.docs, name) == Found(w.docs, name)
  {
    hide Found, DocName, TrimSpace, NewPlan, IsFirstLacked, StartedDiffer, WasAsked, UniqueDocs;
    if !IsRepeat(past, call) && a.parse(call.raw).Some? {
      var args := a.parse(call.raw).value;
      if call.tool == WriteDoc && reply.Saved? {
        StoredFinds(w.docs, Doc(DocName(args.name), args.text, "orchestrator"), w'.docs, name);
      } else if call.tool == Delegate && w' != w {
        var names, missing :| Delegated(args.subtasks.value, names, missing, a.answers(k), a.author, w, w', reply);
        forall i | Saves(missing, a.answers(k), {}, i) ensures names[i] != name {
          assert reply.results[i] == Wrote(names[i]);
        }
      }
    }
  }

  /** Whichever worker answers next. */
  method AnyOf(left: set<int>) returns (i: int)
    requires left != {}
    ensures i in left
  {
    assert (forall k :: k !in left) ==> left == {};
    i :| i in left;
  }

  ghost predicate AllUnique(works: seq<Work>) { forall k :: 0 <= k < |works| ==> UniqueDocs(works[k].docs) }

  lemma NoneUnique()
    ensures AllUnique([])
  {
  }

  lemma UniqueSnoc(works: seq<Work>, w: Work)
    requires AllUnique(works) && UniqueDocs(w.docs)
    ensures AllUnique(works + [w])
  {
    hide UniqueDocs;
  }

  /** A call that repeats the one before it is refused and does nothing; only a
      finish may be repeated, to confirm it. */
  lemma RepeatsAreRefused(calls: seq<Call>, a: Around, before: seq<Step>, past: seq<Step>, works: seq<Work>, k: nat)
    requires Handled(calls, a, before, past, works) && 0 < k < |works| - 1 && calls[k] == calls[k - 1]
    ensures calls[k].tool != Finish ==> past[|before| + k].reply == Rejected(SameCall) && works[k + 1] == works[k]
    ensures calls[k].tool == Finish ==> past[|before| + k].reply != Rejected(SameCall)
  {
    assert HandledAt(calls, a, |before|, past, works, k - 1) && HandledAt(calls, a, |before|, past, works, k);
    hide WasAsked, Listed;
  }

  /** The last write of a document is what is found under its name, whatever the
      calls after it did, until one of them writes that document. */
  lemma {:induction false} LastWriteStays(calls: seq<Call>, a: Around, before: seq<Step>, past: seq<Step>, works: seq<Work>, k: nat, m: nat, name: string)
    requires Handled(calls, a, before, past, works) && AllUnique(works) && k < m < |works|
    requires past[|before| + k].reply == Saved(name)
    requires forall j :: |before| + k < j < |before| + m ==> !Writes(past[j].reply, name)
    ensures a.parse(calls[k].raw).Some? && DocName(a.parse(calls[k].raw).value.name) == name
    ensures Found(works[m].docs, name) == Some(Doc(name, a.parse(calls[k].raw).value.text, "orchestrator"))
  {
    hide Ran, Found, Writes, UniqueDocs;
    var i := m - 1;
    assert HandledAt(calls, a, |before|, past, works, i);
    if i == k {
      WriteIsFound(calls[k], k, a, past[..|before| + k], works[k], works[k + 1], name);
    } else {
      LastWriteStays(calls, a, before, past, works, k, i, name);
      OthersLeaveDocs(calls[i], i, a, past[..|before| + i], works[i], works[m], past[|before| + i].reply, name);
    }
  }

  lemma WriteIsFound(call: Call, k: nat, a: Around, past: seq<Step>, w: Work, w': Work, name: string)
    requires Ran(call, k, a, past, w, w', Saved(name)) && UniqueDocs(w.docs)
    ensures a.parse(call.raw).Some? && DocName(a.parse(call.raw).value.name) == name
    ensures Found(w'.docs, name) == Some(Doc(name, a.parse(call.raw).value.text, "orchestrator"))
  {
    hide DocName, TrimSpace, NewPlan, IsFirstLacked, StartedDiffer, WasAsked, UniqueDocs, Collected, Found, Listed;
    assert call.tool == WriteDoc && a.parse(call.raw).Some?;
    StoredFinds(w.docs, Doc(name, a.parse(call.raw).value.text, "orchestrator"), w'.docs, name);
  }

  class Job {
    var status: Status
    var question: string
    var tasks: seq<Task>
    var docs: seq<Doc>
    var result: seq<string>
    var summary: string
    var messages: seq<string>
    var plannedAt: nat
    var steps: nat
    var recent: seq<Step>
    var finishAsked: bool
    var noTool: nat
    var events: seq<Event>
    ghost var logged: seq<Event> // every event
    ghost var past: seq<Step> // every step
    ghost var marks: seq<Mark>

    ghost predicate Valid()
      reads this
    {
      && UniqueDocs(docs) && TasksOk(tasks) && DoneExist(tasks, docs)
      && EventsOk(events, logged) && RecentOk(recent, past) && steps == |past|
      && FinishesChecked(marks) && (finishAsked <==> WasAsked(marks)) && noTool < MAX_NO_TOOL
    }

    ghost function Now(): Work
      reads this
    {
      Work(status, question, tasks, docs, result, summary, messages, plannedAt, marks)
    }

    constructor (goal: string)
      ensures Valid() && status == Queued && docs == [] && tasks == [] && messages == [] && marks == [] && past == []
      ensures logged == [Event(1, OnUser, goal)]
    {
      status, question, tasks, docs, result, summary := Queued, "", [], [], [], "";
      messages, plannedAt, steps, recent, finishAsked, noTool := [], 0, 0, [], false, 0;
      events, logged, past, marks := [Event(1, OnUser, goal)], [Event(1, OnUser, goal)], [], [];
    }

    /** event: the log keeps the last MAX_EVENTS lines. */
    method Log(kind: Kind, text: string)
      requires EventsOk(events, logged)
      modifies this`events, this`logged
      ensures EventsOk(events, logged) && logged == Logged(old(logged), kind, text)
    {
      var n := 1;
      if |events| > 0 { n := events[|events| - 1].seq_ + 1; }
      NextSeq(events, logged);
      EventsSnoc(events, logged, Event(n, kind, text));
      hide EventsOk;
      events := events + [Event(n, kind, text)];
      logged := logged + [Event(n, kind, text)];
      if |events| > MAX_EVENTS { events := events[|events| - MAX_EVENTS..]; }
    }

    method Record(call: Call, reply: Reply)
      requires RecentOk(recent, past) && steps == |past|
      modifies this`steps, this`recent, this`past
      ensures RecentOk(recent, past) && past == old(past) + [Step(old(steps) + 1, call, reply)] && steps == |past|
    {
      RecentSnoc(recent, past, Step(steps + 1, call, reply));
      hide RecentOk;
      steps := steps + 1;
      recent := recent + [Step(steps, call, reply)];
      past := past + [Step(steps, call, reply)];
      if |recent| > RECENT_STEPS { recent := recent[|recent| - RECENT_STEPS..]; }
    }

    /** repeats: the same call as the previous step; confirming a finish may. */
    predicate Repeats(call: Call)
      reads this
    {
      IsRepeat(recent, call)
    }

    /** putDoc: saves a document, completes its tasks, and asks for the goal
        check again. */
    method PutDoc(name: string, text: string, author: string)
      requires Valid() && name != ""
      modifies this`docs, this`tasks, this`finishAsked, this`events, this`logged, this`marks
      ensures Valid() && Stored(old(docs), Doc(name, text, author), docs) && MarkedDone(old(tasks), name, tasks)
      ensures marks == old(marks) + [DocSaved] && !finishAsked && logged == Logged(old(logged), OnDoc, name)
    {
      hide FinishesChecked, WasAsked, TasksOk, DoneExist, UniqueDocs, Exists, EventsOk, RecentOk;
      var i := FindDoc(docs, name);
      if i >= 0 { docs := docs[i := Doc(name, text, author)]; } else { docs := docs + [Doc(name, text, author)]; }
      StoredKeeps(old(docs), Doc(name, text, author), docs);
      MarkTasks(name);
      MarkedKeeps(old(tasks), old(docs), name, tasks, docs);
      CheckedSnoc(marks, DocSaved);
      finishAsked, marks := false, marks + [DocSaved];
      Log(OnDoc, name);
    }

    method MarkTasks(name: string)
      modifies this`tasks
      ensures MarkedDone(old(tasks), name, tasks)
    {
      for i := 0 to |tasks|
        invariant |tasks| == |old(tasks)|
        invariant forall k :: 0 <= k < i ==> tasks[k] == Marked(old(tasks)[k], name)
        invariant forall k :: i <= k < |tasks| ==> tasks[k] == old(tasks)[k]
      {
        if tasks[i].doc == name { tasks := tasks[i := tasks[i].(done := true)]; }
      }
    }

    // ----- tools ------------------------------------------------------------------------

    /** plan_tasks: replaces the tasks not done yet. */
    method DoPlanTasks(plan: Option<seq<PlanTask>>, canPlan: bool) returns (reply: Reply)
      requires Valid()
      modifies this`tasks, this`plannedAt, this`events, this`logged
      ensures Valid() && PlanCall(plan, canPlan, old(Now()), Now(), reply)
      ensures logged == if reply.Rejected? then old(logged) else Logged(old(logged), OnPlan, "")
    {
      if !canPlan { return Rejected(PlanIsSet); }
      if plan.None? || |plan.value| == 0 { return Rejected(NoTasks); }
      NewPlanKeeps(tasks, docs, plan.value);
      NewPlanIs(tasks, plan.value);
      hide FinishesChecked, WasAsked, TasksOk, DoneExist, UniqueDocs, EventsOk, RecentOk, NewPlan, Renumbered, Planned, Filter, TrimSpace;
      var kept, done := MergePlan(tasks, plan.value);
      SetPlan(Renumbered(kept));
      reply := PlanSet(|kept| - done, done);
    }

    method SetPlan(plan: seq<Task>)
      requires Valid() && TasksOk(plan) && DoneExist(plan, docs)
      modifies this`tasks, this`plannedAt, this`events, this`logged
      ensures Valid() && Now() == old(Now()).(tasks := plan, plannedAt := |messages|) && logged == Logged(old(logged), OnPlan, "")
    {
      hide FinishesChecked, WasAsked, TasksOk, DoneExist, UniqueDocs, EventsOk, RecentOk, TrimSpace;
      tasks, plannedAt := plan, |messages|;
      Log(OnPlan, "");
    }

    static method MergePlan(tasks: seq<Task>, plan: seq<PlanTask>) returns (kept: seq<Task>, done: int)
      ensures kept == Planned(Filter(IsDone, tasks), plan) && done == |Filter(IsDone, tasks)|
    {
      hide Planned, Filter;
      var first, seen := KeepDone(tasks);
      kept := AddTasks(first, seen, plan);
      done := |first|;
    }

    /** The new plan's tasks after the finished ones; seen holds the documents
        that already have a task. */
    static method AddTasks(done: seq<Task>, seen0: set<string>, plan: seq<PlanTask>) returns (kept: seq<Task>)
      requires AreDocs(seen0, done)
      ensures kept == Planned(done, plan)
    {
      hide DocName, TrimSpace;
      var seen := seen0;
      kept := done;
      for i := 0 to |plan|
        invariant kept == Planned(done, plan[..i])
        invariant AreDocs(seen, kept)
      {
        var p := plan[i];
        assert plan[..i + 1][..i] == plan[..i];
        var doc := DocName(p.doc);
        if !(TrimSpace(p.title) == "" || (doc != "" && doc in seen)) {
          SeenSnoc(kept, seen, Task(0, TrimSpace(p.title), doc, false));
          seen := seen + {doc};
          kept := kept + [Task(0, TrimSpace(p.title), doc, false)];
        }
      }
      assert plan[..|plan|] == plan;
    }

    /** The finished tasks, and the documents they produced. */
    static method KeepDone(tasks: seq<Task>) returns (kept: seq<Task>, seen: set<string>)
      ensures kept == Filter(IsDone, tasks)
      ensures AreDocs(seen, kept)
    {
      kept, seen := [], {};
      NoDocs();
      for i := 0 to |tasks|
        invariant kept == Filter(IsDone, tasks[..i])
        invariant AreDocs(seen, kept)
      {
        hide Filter, AreDocs;
        FilterStep(IsDone, tasks, i);
        if tasks[i].done {
          SeenSnoc(kept, seen, tasks[i]);
          kept := kept + [tasks[i]];
          seen := seen + {tasks[i].doc};
        }
      }
      assert tasks[..|tasks|] == tasks;
    }

    method DoWriteDoc(name: string, text: string) returns (reply: Reply)
      requires Valid()
      modifies this`docs, this`tasks, this`finishAsked, this`events, this`logged, this`marks
      ensures Valid() && old(marks) <= marks && WriteCall(name, text, old(Now()), Now(), reply)
      ensures logged == if reply.Rejected? then old(logged) else Logged(old(logged), OnDoc, DocName(name))
    {
      hide Stored, MarkedDone;
      if DocName(name) == "" || TrimSpace(text) == "" { return Rejected(NoText); }
      PutDoc(DocName(name), text, "orchestrator");
      reply := Saved(DocName(name));
    }

    method DoReadDoc(name: string) returns (reply: Reply)
      requires Valid()
      modifies this`events, this`logged
      ensures Valid() && ReadCall(name, old(Now()), Now(), reply)
      ensures logged == if reply.Rejected? then old(logged) else Logged(old(logged), OnRead, DocName(name))
    {
      var i := FindDoc(docs, DocName(name));
      if i >= 0 { FoundIs(docs, docs[i]); }
      hide FinishesChecked, WasAsked, TasksOk, DoneExist, UniqueDocs, EventsOk, RecentOk;
      if i < 0 { return Rejected(NoSuchDoc); }
      Log(OnRead, docs[i].name);
      reply := Contents(docs[i]);
      assert docs[i] in docs;
    }

    method DoAskUser(q: string) returns (reply: Reply)
      requires Valid()
      modifies this`status, this`question, this`events, this`logged
      ensures Valid() && status == Waiting && question == TrimSpace(q) && reply == Asked && logged == Logged(old(logged), OnAsk, TrimSpace(q))
    {
      hide FinishesChecked, WasAsked, TasksOk, DoneExist, UniqueDocs, EventsOk, RecentOk;
      status, question := Waiting, TrimSpace(q);
      Log(OnAsk, question);
      reply := Asked;
    }

    /** finish: refused once, so that the orchestrator compares with the goal;
        accepted if that already happened and no document was saved since. */
    method DoFinish(names: seq<string>, text: string) returns (reply: Reply)
      requires Valid()
      modifies this`status, this`result, this`summary, this`finishAsked, this`events, this`logged, this`marks
      ensures Valid() && old(marks) <= marks && FinishCall(names, text, old(Now()), Now(), reply)
      ensures logged == if WasAsked(old(marks)) then Logged(old(logged), OnFinish, TrimSpace(text)) else old(logged)
    {
      hide FinishesChecked, WasAsked, TasksOk, DoneExist, UniqueDocs, EventsOk, RecentOk, Exists, DocName, TrimSpace, Listed;
      CheckedSnoc(marks, FinishRefused);
      if !finishAsked {
        finishAsked, marks := true, marks + [FinishRefused];
        return NotFinished;
      }
      var found := Present(docs, names);
      Accept(found, TrimSpace(text));
      reply := Finished;
    }

    /** The job is done. */
    method Accept(found: seq<string>, text: string)
      requires Valid() && WasAsked(marks)
      modifies this`status, this`result, this`summary, this`events, this`logged, this`marks
      ensures Valid() && Now() == old(Now()).(status := Done, result := found, summary := text, marks := old(marks) + [FinishAccepted])
      ensures logged == Logged(old(logged), OnFinish, text)
    {
      hide FinishesChecked, WasAsked, TasksOk, DoneExist, UniqueDocs, EventsOk, RecentOk;
      CheckedSnoc(marks, FinishAccepted);
      status, result, summary, marks := Done, found, text, marks + [FinishAccepted];
      Log(OnFinish, text);
    }

    static method Present(docs: seq<Doc>, names: seq<string>) returns (found: seq<string>)
      ensures found == Listed(docs, names)
    {
      hide Exists, DocName;
      found := [];
      for i := 0 to |names|
        invariant found == Listed(docs, names[..i])
      {
        assert names[..i + 1][..i] == names[..i];
        var k := FindDoc(docs, DocName(names[i]));
        if k >= 0 { found := found + [DocName(names[i])]; }
      }
      assert names[..|names|] == names;
    }

    /** Say: a user message; an idle job is queued again. */
    method Say(text: string) returns (ok: bool)
      requires Valid()
      modifies this`messages, this`status, this`question, this`events, this`logged, this`marks
      ensures Valid() && ok == (TrimSpace(text) != "")
      ensures if ok then messages == old(messages) + [TrimSpace(text)] && status == (if old(status) == Running then Running else Queued)
                         && marks == old(marks) + [UserSpoke] && logged == Logged(old(logged), OnUser, TrimSpace(text))
              else messages == old(messages) && status == old(status) && marks == old(marks) && logged == old(logged)
    {
      hide FinishesChecked, WasAsked, TasksOk, DoneExist, UniqueDocs, EventsOk, RecentOk, TrimSpace, Exists;
      if TrimSpace(text) == "" { return false; }
      messages := messages + [TrimSpace(text)];
      CheckedSnoc(marks, UserSpoke);
      marks := marks + [UserSpoke];
      Log(OnUser, TrimSpace(text));
      if status != Running { status, question := Queued, ""; }
      ok := true;
    }

    // ----- delegation ---------------------------------------------------------------------

    /** missingContext: the first context document that a task will produce but
        that does not exist yet, or "". */
    method MissingContext(context: seq<string>) returns (missing: string)
      ensures IsFirstLacked(docs, tasks, context, missing)
    {
      for i := 0 to |context|
        invariant forall k :: 0 <= k < i ==> !Lacks(docs, tasks, DocName(context[k]))
      {
        var name := DocName(context[i]);
        var k := FindDoc(docs, name);
        if k < 0 {
          for t := 0 to |tasks|
            invariant forall x :: 0 <= x < t ==> tasks[x].doc != name
          {
            if tasks[t].doc == name {
              assert tasks[t] in tasks;
              assert FirstLacked(docs, tasks, context, i);
              return name;
            }
          }
        }
      }
      return "";
    }

    /** The first half of delegate: which tasks may start, and under which names
        their results will be saved. Results of one call never share a name. */
    method Assign(tasks: seq<Subtask>) returns (names: seq<string>, missing: seq<string>)
      requires EventsOk(events, logged)
      modifies this`events, this`logged
      ensures EventsOk(events, logged) && old(logged) <= logged
      ensures |names| == |missing| == |tasks|
      ensures forall i :: 0 <= i < |tasks| ==> IsFirstLacked(docs, this.tasks, tasks[i].context, missing[i])
      ensures forall i :: 0 <= i < |tasks| && missing[i] == "" ==> NamedFrom(names[i], WantedName(tasks[i], steps, i)) && names[i] !in names[..i]
    {
      hide EventsOk, NamedFrom, WantedName, IsFirstLacked;
      names, missing := [], [];
      for i := 0 to |tasks|
        invariant EventsOk(events, logged) && old(logged) <= logged && |names| == |missing| == i
        invariant forall k :: 0 <= k < i ==> IsFirstLacked(docs, this.tasks, tasks[k].context, missing[k])
        invariant forall k :: 0 <= k < i && missing[k] == "" ==> NamedFrom(names[k], WantedName(tasks[k], steps, k)) && names[k] !in names[..k]
      {
        var m := MissingContext(tasks[i].context);
        var name := tasks[i].saveAs;
        if m == "" {
          name := NameFor(tasks[i], i, names);
          Log(OnDelegate, name);
        }
        assert forall k :: 0 <= k < i ==> (names + [name])[..k] == names[..k];
        assert (names + [name])[..i] == names;
        names, missing := names + [name], missing + [m];
      }
    }

    method NameFor(t: Subtask, i: nat, taken: seq<string>) returns (name: string)
      ensures NamedFrom(name, WantedName(t, steps, i)) && name !in taken
    {
      var base := WantedName(t, steps, i);
      ghost var n;
      name, n := FirstFree(base, taken);
    }

    /** The second half: the workers answer in any order, each result is saved
        as its own document. */
    method Collect(names: seq<string>, missing: seq<string>, answer: nat -> Option<string>, author: nat -> string)
      requires Valid() && |names| == |missing| && StartedDiffer(names, missing)
      modifies this`docs, this`tasks, this`finishAsked, this`events, this`logged, this`marks
      ensures Valid() && old(marks) <= marks && old(logged) <= logged
      ensures Collected(old(docs), old(tasks), docs, tasks, names, missing, answer, author, {})
    {
      hide Stored, MarkedDone, Collected, Exists, StartedDiffer;
      var left: set<int> := set i: int | 0 <= i < |names| && missing[i] == "";
      NoneCollected(docs, tasks, names, missing, answer, author, left);
      while left != {}
        invariant Valid() && old(marks) <= marks && old(logged) <= logged && forall i :: i in left ==> 0 <= i < |names| && missing[i] == ""
        invariant Collected(old(docs), old(tasks), docs, tasks, names, missing, answer, author, left)
        decreases |left|
      {
        var i := AnyOf(left);
        ghost var docs1, tasks1 := docs, tasks;
        if !Answered(answer(i)) {
          LogMore(OnError, names[i]);
          CollectSkip(old(docs), old(tasks), docs, tasks, names, missing, answer, author, left, i);
        } else {
          SaveResult(names, missing, i, answer(i).value, author(i));
          CollectStep(old(docs), old(tasks), docs1, tasks1, docs, tasks, names, missing, answer, author, left, i);
        }
        left := left - {i};
      }
    }

    method LogMore(kind: Kind, text: string)
      requires Valid()
      modifies this`events, this`logged
      ensures Valid() && logged == Logged(old(logged), kind, text)
    {
      hide FinishesChecked, WasAsked, TasksOk, DoneExist, UniqueDocs, EventsOk, RecentOk;
      Log(kind, text);
    }

    /** Saves worker i's text. */
    method SaveResult(names: seq<string>, missing: seq<string>, i: nat, text: string, author: string)
      requires Valid() && |names| == |missing| && StartedDiffer(names, missing) && i < |names| && missing[i] == ""
      modifies this`docs, this`tasks, this`finishAsked, this`events, this`logged, this`marks
      ensures Valid() && old(marks) <= marks && old(logged) <= logged && UniqueDocs(old(docs))
      ensures Stored(old(docs), Doc(names[i], text, author), docs) && MarkedDone(old(tasks), names[i], tasks)
    {
      hide Stored, MarkedDone, Exists;
      PutDoc(names[i], text, author);
      LogMore(OnWorker, names[i]);
    }

    /** delegate: every started task's non-empty answer ends up in a document of
        its own, whatever the order the workers answer in. */
    method DoDelegate(subtasks: Option<seq<Subtask>>, workers: nat, answer: nat -> Option<string>, author: nat -> string)
      returns (reply: Reply, names: seq<string>, missing: seq<string>)
      requires Valid()
      modifies this`docs, this`tasks, this`finishAsked, this`events, this`logged, this`marks
      ensures Valid() && old(marks) <= marks && old(logged) <= logged
      ensures if workers == 0 || subtasks.None? || subtasks.value == [] then reply.Rejected? && Now() == old(Now())
              else Delegated(subtasks.value, names, missing, answer, author, old(Now()), Now(), reply)
    {
      hide UniqueDocs, TasksOk, DoneExist, RecentOk, FinishesChecked, WasAsked, EventsOk, Exists, NamedFrom, WantedName, Collected, StartedDiffer, IsFirstLacked;
      names, missing := [], [];
      if workers == 0 { return Rejected(NoWorkers), names, missing; }
      if subtasks.None? || |subtasks.value| == 0 { return Rejected(NoTasks), names, missing; }
      names, missing := Assign(subtasks.value);
      AssignedDiffer(subtasks.value, names, missing, steps);
      assert forall i :: 0 <= i < |names| ==> IsFirstLacked(old(docs), old(this.tasks), subtasks.value[i].context, missing[i]);
      Collect(names, missing, answer, author);
      reply := Results(ResultsOf(subtasks.value, names, missing, answer));
    }

    /** tool: any call, with any arguments; parse reads them. */
    method DoTool(call: Call, parse: string -> Option<Args>, canPlan: bool, workers: nat, answer: nat -> Option<string>, author: nat -> string)
      returns (reply: Reply)
      requires Valid()
      modifies this`status, this`question, this`tasks, this`docs, this`result, this`summary, this`plannedAt
      modifies this`finishAsked, this`events, this`logged, this`marks
      ensures Valid() && old(marks) <= marks && old(logged) <= logged
      ensures Did(call.tool, parse(call.raw), canPlan, workers, answer, author, old(Now()), Now(), reply)
    {
      hide UniqueDocs, TasksOk, DoneExist, RecentOk, FinishesChecked, EventsOk, Exists, NewPlan, Stored, WasAsked, PlanCall, WriteCall, ReadCall, FinishCall, Delegated;
      if parse(call.raw).None? { return Rejected(BadArguments); }
      var args := parse(call.raw).value;
      match call.tool {
        case PlanTasks => reply := DoPlanTasks(args.tasks, canPlan);
        case WriteDoc => reply := DoWriteDoc(args.name, args.text);
        case ReadDoc => reply := DoReadDoc(args.name);
        case AskUser => reply := DoAskUser(args.question);
        case Finish => reply := DoFinish(args.docs, args.summary);
        case Delegate =>
          var names, missing;
          reply, names, missing := DoDelegate(args.subtasks, workers, answer, author);
          assert DelegateCall(args.subtasks, workers, answer, author, old(Now()), Now(), reply);
        case _ => reply := Rejected(UnknownTool);
      }
    }

    /** The plan may be set with no plan yet, a finished one, or a new message. */
    predicate CanPlan()
      reads this`tasks, this`messages, this`plannedAt
    {
      (forall t :: t in tasks ==> t.done) || |messages| > plannedAt
    }

    /** One orchestrator answer: its calls are executed in order until the job
        stops running. An answer without a call counts towards giving up. */
    method RunStep(calls: seq<Call>, parse: string -> Option<Args>, workers: nat, answers: nat -> nat -> Option<string>, author: nat -> string)
      returns (handled: nat, ghost works: seq<Work>)
      requires Valid() && status == Running
      modifies this`status, this`question, this`tasks, this`docs, this`result, this`summary, this`plannedAt
      modifies this`finishAsked, this`events, this`logged, this`marks, this`steps, this`recent, this`past, this`noTool
      ensures Valid() && old(marks) <= marks && old(logged) <= logged && old(past) <= past && steps == old(steps) + handled
      ensures 1 <= handled <= Max(1, |calls|) && (status == Running ==> handled == Max(1, |calls|))
      ensures status in {Running, Waiting, Done}
      ensures calls != [] ==> |works| == handled + 1 && works[0] == old(Now()) && works[handled] == Now() && AllUnique(works)
      ensures calls != [] ==>
                && var canPlan := (forall t :: t in old(tasks) ==> t.done) || |old(messages)| > old(plannedAt);
                   Handled(calls, Around(parse, canPlan, workers, answers, author), old(past), past, works)
      ensures calls == [] ==> docs == old(docs) && tasks == old(tasks) && marks == old(marks)
                              && (status == Waiting <==> old(noTool) == MAX_NO_TOOL - 1) && noTool == (old(noTool) + 1) % MAX_NO_TOOL
      ensures status == Done ==> marks != [] && marks[|marks| - 1] == FinishAccepted
    {
      if |calls| == 0 {
        CountNoTool();
        return 1, [];
      }
      handled, works := RunCalls(calls, parse, workers, answers, author);
    }

    method CountNoTool()
      requires Valid() && status == Running
      modifies this`status, this`question, this`events, this`logged, this`steps, this`recent, this`past, this`noTool
      ensures Valid() && steps == old(steps) + 1 && old(past) <= past && old(logged) <= logged
      ensures status == (if old(noTool) == MAX_NO_TOOL - 1 then Waiting else Running) && noTool == (old(noTool) + 1) % MAX_NO_TOOL
    {
      hide UniqueDocs, TasksOk, DoneExist, RecentOk, FinishesChecked, EventsOk, WasAsked;
      Record(Call(NoTool, ""), Rejected(NoCall));
      noTool := noTool + 1;
      if noTool >= MAX_NO_TOOL {
        noTool, status, question := 0, Waiting, "";
        Log(OnError, question);
      }
    }

    method ResetNoTool()
      requires Valid()
      modifies this`noTool
      ensures Valid() && Now() == old(Now()) && steps == |past| && UniqueDocs(Now().docs)
    {
      noTool := 0;
    }

    method RunCalls(calls: seq<Call>, parse: string -> Option<Args>, workers: nat, answers: nat -> nat -> Option<string>, author: nat -> string)
      returns (handled: nat, ghost works: seq<Work>)
      requires Valid() && status == Running && calls != []
      modifies this`status, this`question, this`tasks, this`docs, this`result, this`summary, this`plannedAt
      modifies this`finishAsked, this`events, this`logged, this`marks, this`steps, this`recent, this`past, this`noTool
      ensures Valid() && old(marks) <= marks && old(logged) <= logged && old(past) <= past && steps == old(steps) + handled
      ensures 1 <= handled <= |calls| && (status == Running ==> handled == |calls|)
      ensures status in {Running, Waiting, Done}
      ensures status == Done ==> marks != [] && marks[|marks| - 1] == FinishAccepted
      ensures |works| == handled + 1 && works[0] == old(Now()) && works[handled] == Now() && AllUnique(works)
      ensures Handled(calls, Around(parse, old(CanPlan()), workers, answers, author), old(past), past, works)
    {
      hide *;
      var canPlan := CanPlan();
      ResetNoTool();
      handled := 0;
      ghost var a := Around(parse, canPlan, workers, answers, author);
      works := [Now()];
      NothingHandled(calls, a, past, Now());
      NoneUnique();
      UniqueSnoc([], Now());
      assert [] + [Now()] == [Now()];
      while handled < |calls|
        invariant Valid() && status == Running && old(marks) <= marks && old(logged) <= logged && old(past) <= past && steps == old(steps) + handled && handled <= |calls|
        invariant steps == |past| && |works| == handled + 1 && works[0] == old(Now()) && works[handled] == Now() && AllUnique(works) && Handled(calls, a, old(past), past, works)
      {
        var stopped;
        ghost var reply, before := Asked, past;
        stopped, reply := RunCall(calls[handled], handled, parse, canPlan, workers, answers, author);
        HandledSnoc(calls, a, old(past), before, works, Now(), reply);
        UniqueSnoc(works, Now());
        works := works + [Now()];
        handled := handled + 1;
        if stopped { return; }
      }
    }

    method RunCall(call: Call, k: nat, parse: string -> Option<Args>, canPlan: bool, workers: nat, answers: nat -> nat -> Option<string>, author: nat -> string)
      returns (stopped: bool, ghost reply: Reply)
      requires Valid() && status == Running
      modifies this`status, this`question, this`tasks, this`docs, this`result, this`summary, this`plannedAt
      modifies this`finishAsked, this`events, this`logged, this`marks, this`steps, this`recent, this`past
      ensures Valid() && old(marks) <= marks && old(logged) <= logged && steps == old(steps) + 1 && stopped == (status != Running)
      ensures past == old(past) + [Step(steps, call, reply)] && steps == |past| && UniqueDocs(Now().docs)
      ensures Ran(call, k, Around(parse, canPlan, workers, answers, author), old(past), old(Now()), Now(), reply)
      ensures status in {Running, Waiting, Done} && (status == Done ==> marks == old(marks) + [FinishAccepted])
    {
      hide UniqueDocs, TasksOk, DoneExist, RecentOk, FinishesChecked, EventsOk, WasAsked, Ran;
      var result := Execute(call, k, parse, canPlan, workers, answers, author);
      Record(call, result);
      reply := result;
      stopped := status != Running;
    }

    /** The call itself, unless it repeats the step before. */
    method Execute(call: Call, k: nat, parse: string -> Option<Args>, canPlan: bool, workers: nat, answers: nat -> nat -> Option<string>, author: nat -> string)
      returns (reply: Reply)
      requires Valid() && status == Running
      modifies this`status, this`question, this`tasks, this`docs, this`result, this`summary, this`plannedAt
      modifies this`finishAsked, this`events, this`logged, this`marks
      ensures Valid() && old(marks) <= marks && old(logged) <= logged
      ensures Ran(call, k, Around(parse, canPlan, workers, answers, author), past, old(Now()), Now(), reply)
      ensures status in {Running, Waiting, Done} && (status == Done ==> marks == old(marks) + [FinishAccepted])
    {
      RecentRepeats(recent, past, call);
      hide UniqueDocs, TasksOk, DoneExist, RecentOk, FinishesChecked, EventsOk, WasAsked, IsRepeat, Did;
      if Repeats(call) { return Rejected(SameCall); }
      reply := DoTool(call, parse, canPlan, workers, answers(k), author);
      DidStatus(call.tool, parse(call.raw), canPlan, workers, answers(k), author, old(Now()), Now(), reply);
    }
  }

  lemma NothingHandled(calls: seq<Call>, a: Around, past: seq<Step>, w: Work)
    ensures Handled(calls, a, past, past, [w])
  {
  }

  function ResultsOf(tasks: seq<Subtask>, names: seq<string>, missing: seq<string>, answer: nat -> Option<string>): (r: seq<TaskResult>)
    requires |names| == |missing| == |tasks|
    ensures |r| == |tasks|
    ensures forall i :: 0 <= i < |r| ==>
              r[i] == if missing[i] != "" then NotStarted(DocName(tasks[i].saveAs), missing[i])
                      else if answer(i).Some? && answer(i).value != "" then Wrote(names[i]) else WorkerFailed(names[i])
  {
    seq(|tasks|, i requires 0 <= i < |tasks| =>
      if missing[i] != "" then NotStarted(DocName(tasks[i].saveAs), missing[i])
      else if Answered(answer(i)) then Wrote(names[i])
      else WorkerFailed(names[i]))
  }

  lemma AssignedDiffer(tasks: seq<Subtask>, names: seq<string>, missing: seq<string>, steps: nat)
    requires |names| == |missing| == |tasks|
    requires forall i :: 0 <= i < |tasks| && missing[i] == "" ==> NamedFrom(names[i], WantedName(tasks[i], steps, i)) && names[i] !in names[..i]
    ensures StartedDiffer(names, missing)
  {
    hide WantedName, NamedFrom;
    forall i | 0 <= i < |names| && missing[i] == "" ensures names[i] != "" { NamedIsNamed(names[i], WantedName(tasks[i], steps, i)); }
    forall i, j | 0 <= i < j < |names| && missing[i] == "" && missing[j] == "" ensures names[i] != names[j] {
      assert names[..j][i] == names[i];
    }
  }

  predicate Answered(a: Option<string>) { a.Some? && a.value != "" }

  /** The name a subtask asks for, or result_<step>_<number>. */
  function WantedName(t: Subtask, steps: nat, i: nat): (r: string)
    ensures r != ""
  {
    if DocName(t.saveAs) != "" then DocName(t.saveAs) else "result_" + Digits(steps + 1) + "_" + Digits(i + 1)
  }

  /** name is base, or base with a number. */
  ghost predicate NamedFrom(name: string, base: string)
  {
    exists n :: n >= 2 && name == Attempt(base, n)
  }

  lemma NamedIsNamed(name: string, base: string)
    requires NamedFrom(name, base) && base != ""
    ensures name != ""
  {
  }

  /** The names of started tasks are non-empty and all different. */
  ghost predicate StartedDiffer(names: seq<string>, missing: seq<string>)
    requires |names| == |missing|
  {
    && (forall i :: 0 <= i < |names| && missing[i] == "" ==> names[i] != "")
    && (forall i, j :: 0 <= i < |names| && 0 <= j < |names| && missing[i] == "" && missing[j] == "" && names[i] == names[j] ==> i == j)
  }
}
