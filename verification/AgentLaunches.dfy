/** What becomes of a queued sub-task in every run: it waits as it is until one step hands it to the service
    of its kind, and then it is as that service leaves it. */
module AgentLaunches {
  import opened Basics
  import opened AgentModel
  import opened Histories
  import opened AgentStaging
  import opened AgentSlots
  import opened AgentEvents
  import opened AgentOrder

  predicate Waits(v: View) {
    v.sub.Some? && v.sub.value.status == Queuing
  }

  /** A queued sub-task before and after it is handed over. A collection ends at once, and its status and its
      one report say what the collection came to. A deployment is commanded. A use case without inputs tries
      to start its job; with inputs it marks each of them and sends for it. */
  ghost predicate Launches(v: View, x: View, w: World)
    requires Waits(v)
  {
    var s := v.sub.value;
    match s.kind
    case Collection =>
      x == if w.collected then v.(sub := Some(s.(status := Completed)), done := 1)
           else v.(sub := Some(s.(status := Status.Failed)), failed := 1)
    case Deployment => x == v.(sub := Some(s.(status := Running)), deploying := true)
    case Usecase =>
      if forall f :: f in v.files ==> v.files[f].direction != IN
      then
        match w.launch
        case Submitted(job) => x == v.(sub := Some(s.(status := Running, job := Some(job))), jobs := 1)
        case SoftwareMissing => x == v.(sub := Some(s.(status := Status.Failed)), failed := 1)
        case SubmitError => x == v.(sub := Some(s.(status := Running)))
      else
        && x == v.(sub := Some(s.(status := Running)), files := x.files, down := x.down)
        && x.files.Keys == v.files.Keys
        && (forall f :: f in v.files ==>
              x.files[f] == if v.files[f].direction == IN then v.files[f].(status := Downloading) else v.files[f])
        && forall f :: f in x.down <==> f in v.files && v.files[f].direction == IN
    case Unsupported => false
  }

  /** A queued sub-task is left as it is, or handed over. */
  ghost predicate LeftOrLaunched(a: Agent, b: Agent, id: Uuid, w: World) {
    var v, x := ViewOf(a, id), ViewOf(b, id);
    Waits(v) ==> x == v || Launches(v, x, w)
  }

  ghost predicate LeavesQueued(a: Agent, b: Agent, id: Uuid) {
    Waits(ViewOf(a, id)) ==> ViewOf(b, id) == ViewOf(a, id)
  }

  lemma LeavesFirst(a: Agent, b: Agent, c: Agent, id: Uuid, w: World)
    requires LeavesQueued(a, b, id) && LeftOrLaunched(b, c, id, w)
    ensures LeftOrLaunched(a, c, id, w)
  {
  }

  // ---------------------------------------------------------------- the services

  lemma JobHandedOver(a: Agent, s: SubTask, launch: Launch, collected: bool, id: Uuid)
    requires AllSafe(a) && Find(a.subs, SubId, s.id) == Some(s) && s.status == Queuing && s.kind == Usecase
    ensures LeftOrLaunched(a, EnqueueJob(a, s, launch), id, World(launch, collected))
  {
    OwnInputs(a, s.id);
    if FilesOf(a.files, s.id, IN) == {} {
      JobStarted(a, s, launch, collected, id);
    } else {
      InputsFetched(a, s, launch, collected, id);
    }
  }

  lemma JobStarted(a: Agent, s: SubTask, launch: Launch, collected: bool, id: Uuid)
    requires AllSafe(a) && Find(a.subs, SubId, s.id) == Some(s) && s.status == Queuing && s.kind == Usecase
    requires FilesOf(a.files, s.id, IN) == {}
    ensures LeftOrLaunched(a, EnqueueJob(a, s, launch), id, World(launch, collected))
  {
    StartedView(a, s, launch, id);
    if id == s.id {
      OwnInputs(a, s.id);
      OneSafe(a, s.id);
      StartLaunches(ViewOf(a, s.id), s, World(launch, collected));
    }
  }

  /** The view after a job is started, or not. */
  function Start(v: View, s: SubTask, launch: Launch): View {
    match launch
    case SubmitError => v.(sub := Some(s.(status := Running)))
    case SoftwareMissing => v.(sub := Some(s.(status := Status.Failed)), failed := v.failed + 1)
    case Submitted(job) => v.(sub := Some(s.(status := Running, job := Some(job))), jobs := v.jobs + 1)
  }

  lemma StartLaunches(v: View, s: SubTask, w: World)
    requires v.sub == Some(s) && s.status == Queuing && s.kind == Usecase && Safe(v)
    requires forall f :: f in v.files ==> v.files[f].direction != IN
    ensures Launches(v, Start(v, s, w.launch), w)
  {
  }

  lemma StartedView(a: Agent, s: SubTask, launch: Launch, id: Uuid)
    requires AllSafe(a) && Find(a.subs, SubId, s.id) == Some(s)
    requires FilesOf(a.files, s.id, IN) == {}
    ensures ViewOf(EnqueueJob(a, s, launch), id) ==
            if id == s.id then Start(ViewOf(a, id), s, launch) else ViewOf(a, id)
  {
    var running := s.(status := Running);
    SetSubView(a, running, id);
    MoveBackFinds(a.subs, SubId, running, s.id);
    RunIfReadyView(SetSub(a, running), s.id, launch, id);
  }

  lemma OneSafe(a: Agent, id: Uuid)
    requires AllSafe(a)
    ensures Safe(ViewOf(a, id))
  {
  }

  lemma InputsFetched(a: Agent, s: SubTask, launch: Launch, collected: bool, id: Uuid)
    requires AllSafe(a) && Find(a.subs, SubId, s.id) == Some(s) && s.status == Queuing && s.kind == Usecase
    requires FilesOf(a.files, s.id, IN) != {}
    ensures LeftOrLaunched(a, EnqueueJob(a, s, launch), id, World(launch, collected))
  {
    var running := s.(status := Running);
    assert Safe(ViewOf(a, s.id));
    SetSubView(a, running, id);
    FetchView(SetSub(a, running), s.id, id);
    if id == s.id { FetchedView(a, s, ViewOf(EnqueueJob(a, s, launch), id), World(launch, collected)); }
  }

  lemma FetchedView(a: Agent, s: SubTask, x: View, w: World)
    requires ViewOf(a, s.id).sub == Some(s) && s.status == Queuing && s.kind == Usecase
    requires ViewOf(a, s.id).down == {} && FilesOf(a.files, s.id, IN) != {}
    requires var v, ins := ViewOf(a, s.id), FilesOf(a.files, s.id, IN);
             x == v.(sub := Some(s.(status := Running)), files := MarkAll(v.files, ins, Downloading),
                     down := v.down + ins)
    ensures Launches(ViewOf(a, s.id), x, w)
  {
    OwnInputs(a, s.id);
  }

  lemma RunIfReadyView(a: Agent, sub: Uuid, launch: Launch, id: Uuid)
    requires Distinct(Keys(a.subs, SubId)) && Find(a.subs, SubId, sub).Some? && AllBoth(a.files, sub, IN)
    ensures var v := ViewOf(a, id);
            var s := Find(a.subs, SubId, sub).value;
            ViewOf(RunIfReady(a, sub, launch), id) ==
            if id != sub || launch.SubmitError? then v
            else if launch.SoftwareMissing? then v.(sub := Some(s.(status := Status.Failed)), failed := v.failed + 1)
            else v.(sub := Some(s.(job := Some(launch.job))), jobs := v.jobs + 1)
  {
    var s := Find(a.subs, SubId, sub).value;
    match launch
    case SubmitError =>
    case SoftwareMissing => ReportedView(a, s, Status.Failed, false, id);
    case Submitted(job) =>
      SetSubView(a, s.(job := Some(job)), id);
      JobView(SetSub(a, s.(job := Some(job))), sub, id);
  }

  lemma OwnInputs(a: Agent, id: Uuid)
    ensures var v := ViewOf(a, id);
            forall f :: f in FilesOf(a.files, id, IN) <==> f in v.files && v.files[f].direction == IN
  {
  }

  lemma CollectionHandedOver(a: Agent, s: SubTask, launch: Launch, collected: bool, id: Uuid)
    requires AllSafe(a) && Find(a.subs, SubId, s.id) == Some(s) && s.status == Queuing && s.kind == Collection
    ensures LeftOrLaunched(a, EnqueueCollection(a, s, collected), id, World(launch, collected))
  {
    ReportedView(a, s, if collected then Completed else Status.Failed, collected, id);
    if id == s.id {
      OneSafe(a, s.id);
      CollectLaunches(ViewOf(a, s.id), s, World(launch, collected));
    }
  }

  lemma CollectLaunches(v: View, s: SubTask, w: World)
    requires v.sub == Some(s) && s.status == Queuing && s.kind == Collection && Safe(v)
    ensures Launches(v, Ended(v, if w.collected then Completed else Status.Failed, w.collected), w)
  {
  }

  lemma DeploymentHandedOver(a: Agent, s: SubTask, w: World, id: Uuid)
    requires AllSafe(a) && Find(a.subs, SubId, s.id) == Some(s) && s.status == Queuing && s.kind == Deployment
    ensures LeftOrLaunched(a, EnqueueDeployment(a, s), id, w)
  {
    var running := SetSub(a, s.(status := Running));
    SetSubView(a, s.(status := Running), id);
    assert ViewOf(EnqueueDeployment(a, s), id) ==
           ViewOf(running, id).(deploying := ViewOf(running, id).deploying || id == s.id);
  }

  lemma HandedOver(a: Agent, s: SubTask, w: World, id: Uuid)
    requires AllSafe(a) && Find(a.subs, SubId, s.id) == Some(s) && s.status == Queuing
    ensures LeftOrLaunched(a, Enqueue(a, s, w), id, w)
  {
    match s.kind
    case Usecase => JobHandedOver(a, s, w.launch, w.collected, id);
    case Collection => CollectionHandedOver(a, s, w.launch, w.collected, id);
    case Deployment => DeploymentHandedOver(a, s, w, id);
    case Unsupported =>
  }

  // ---------------------------------------------------------------- the scheduler

  /** Tasks and slots are not part of any view. */
  lemma SameView(a: Agent, b: Agent, id: Uuid)
    requires b == a.(tasks := b.tasks, count := b.count)
    ensures ViewOf(b, id) == ViewOf(a, id)
  {
  }

  lemma DispatchLaunches(a: Agent, task: Uuid, w: World, id: Uuid)
    requires AllSafe(a)
    ensures LeftOrLaunched(a, Dispatch(a, Body(a.subs, task), w), id, w)
  {
    var body := Body(a.subs, task);
    DispatchIs(a, body, w);
    var s := FirstQueuing(body);
    if s.Some? {
      MemberFound(a.subs, s.value);
      var counted := a.(count := a.count + 1);
      SameViews(a, counted);
      SameView(a, counted, id);
      HandedOver(counted, s.value, w, id);
    }
  }

  lemma ByIdLaunches(a: Agent, task: Uuid, w: World, id: Uuid)
    requires AllSafe(a)
    ensures LeftOrLaunched(a, ScheduleById(a, task, w), id, w)
  {
    var started := SetTask(a, Task(task, Running));
    SameViews(a, started);
    SameView(a, started, id);
    DispatchLaunches(a, task, w, id);
    DispatchLaunches(started, task, w, id);
  }

  lemma NextLaunches(a: Agent, w: World, id: Uuid)
    requires AllSafe(a)
    ensures LeftOrLaunched(a, ScheduleNext(a, w), id, w)
  {
    var t := FirstQueuingTask(a.tasks);
    if t.Some? { ByIdLaunches(a, t.value.id, w, id); }
  }

  lemma ProceedLaunches(a: Agent, task: Uuid, w: World, id: Uuid)
    requires AllSafe(a)
    ensures LeftOrLaunched(a, Proceed(a, task, w), id, w)
  {
    var t := Find(a.tasks, TaskId, task);
    if t.Some? {
      var ended := SetTask(a, t.value.(status := Completed));
      SameViews(a, ended);
      SameView(a, ended, id);
      NextLaunches(ended, w, id);
      ByIdLaunches(a, task, w, id);
    }
  }

  lemma TakenView(a: Agent, i: nat, id: Uuid)
    requires i < |a.reports|
    ensures ViewOf(Taken(a, i), id) == ViewOf(a, id)
  {
  }

  lemma FreedView(a: Agent, s: SubTask, id: Uuid)
    requires AllSafe(a) && Find(a.subs, SubId, s.id) == Some(s) && SentFor(a.past.sent, s.id, true) > 0
    ensures LeavesQueued(a, Freed(a, s), id)
  {
    assert Safe(ViewOf(a, s.id));
    SetSubView(a, s.(status := Completed), id);
    SameView(SetSub(a, s.(status := Completed)), Freed(a, s), id);
  }

  lemma CompletedLaunches(a: Agent, i: nat, w: World, id: Uuid)
    requires AllSafe(a) && i < |a.reports| && a.reports[i].completed
    ensures LeftOrLaunched(a, CompleteSubTask(Taken(a, i), a.reports[i].sub, w), id, w)
  {
    var b := Taken(a, i);
    assert a.reports[i] in a.reports;
    SameViews(a, b);
    TakenView(a, i, id);
    CompleteSubTaskIs(b, a.reports[i].sub, w);
    var s := Find(b.subs, SubId, a.reports[i].sub);
    if s.Some? {
      FreedSafe(b, s.value);
      FreedView(b, s.value, id);
      ProceedLaunches(Freed(b, s.value), s.value.parent, w, id);
      LeavesFirst(b, Freed(b, s.value), Proceed(Freed(b, s.value), s.value.parent, w), id, w);
    }
  }

  lemma FailedLaunches(a: Agent, i: nat, w: World, id: Uuid)
    requires AllSafe(a) && i < |a.reports|
    ensures LeftOrLaunched(a, FailSubTask(Taken(a, i), a.reports[i].sub, w), id, w)
  {
    var b := Taken(a, i);
    TakenView(a, i, id);
    FailSubTaskIs(b, a.reports[i].sub, w);
    var freed := b.(count := b.count - 1);
    SameViews(a, freed);
    SameView(b, freed, id);
    var s := Find(b.subs, SubId, a.reports[i].sub);
    var t := if s.None? then None else Find(b.tasks, TaskId, s.value.parent);
    if t.Some? {
      var ended := SetTask(freed, t.value.(status := Status.Failed));
      SameViews(a, ended);
      SameView(freed, ended, id);
      NextLaunches(ended, w, id);
    }
  }

  lemma StoredLeaves(a: Agent, task: Uuid, body: seq<SubTask>, files: map<Uuid, FileSpec>, id: Uuid)
    requires AllSafe(a) && NewWork(a, task, body, files)
    ensures LeavesQueued(a, Stored(a, task, body, files), id)
  {
    StoredView(a, task, body, files, id);
    StoredOwnFiles(a, task, body, files, id);
    var v := ViewOf(a, id);
    if v.sub.Some? { assert v.files + OwnFiles(NewFiles(files), id) == v.files; }
  }

  lemma SubmitLaunches(a: Agent, task: Uuid, body: seq<SubTask>, files: map<Uuid, FileSpec>, w: World, id: Uuid)
    requires AllSafe(a) && NewWork(a, task, body, files)
    ensures LeftOrLaunched(a, EnqueueTask(a, task, body, files, w), id, w)
    ensures LeftOrLaunched(Stored(a, task, body, files), EnqueueTask(a, task, body, files, w), id, w)
  {
    var stored := Stored(a, task, body, files);
    StoredSafe(a, task, body, files);
    StoredLeaves(a, task, body, files, id);
    ByIdLaunches(stored, task, w, id);
    LeavesFirst(a, stored, ScheduleById(stored, task, w), id, w);
  }

  // ---------------------------------------------------------------- every run

  predicate Dispatches(step: Step) {
    step.Submit? || step.Tick? || step.Consume?
  }

  lemma StepLaunches(a: Agent, step: Step, id: Uuid)
    requires AllSafe(a) && Enabled(a, step) && Dispatches(step)
    ensures LeftOrLaunched(a, Next(a, step), id, step.w)
  {
    match step
    case Submit(task, body, files, w) => SubmitLaunches(a, task, body, files, w, id);
    case Tick(w) => NextLaunches(a, w, id);
    case Consume(i, w) =>
      if a.reports[i].completed { CompletedLaunches(a, i, w, id); } else { FailedLaunches(a, i, w, id); }
  }

  lemma OthersKeepWaiting(a: Agent, step: Step, id: Uuid)
    requires AllSafe(a) && Ordered(SlotsOf(a)) && ReportsFit(a) && Enabled(a, step) && !Dispatches(step)
    requires Waits(ViewOf(a, id))
    ensures Waits(ViewOf(Next(a, step), id))
  {
    StepEvent(a, step);
    MovesKeepWaiting(SlotsOf(a), SlotsOf(Next(a, step)), id);
  }

  lemma MovesKeepWaiting(p: Slots, q: Slots, id: Uuid)
    requires Moves(p, q) && Sub(p, id).Some? && Sub(p, id).value.status == Queuing
    ensures Sub(q, id).Some? && Sub(q, id).value.status == Queuing
  {
    assert SameSub(Sub(p, id), Sub(q, id), id in p.consumed);
  }

  /** In every run a queued sub-task stops waiting only in a step that submits, ticks or consumes a report,
      and then it is as the service of its kind leaves it. */
  lemma LaunchDoes(states: seq<Agent>, steps: seq<Step>, maxTasks: nat, i: nat, id: Uuid)
    requires Run(states, steps, maxTasks) && i < |steps|
    requires Waits(ViewOf(states[i], id)) && !Waits(ViewOf(states[i + 1], id))
    ensures Dispatches(steps[i]) && Launches(ViewOf(states[i], id), ViewOf(states[i + 1], id), steps[i].w)
  {
    RunIsOrdered(states, steps, maxTasks, i);
    assert ServiceCalls()(states[i], steps[i], states[i + 1]);
    if Dispatches(steps[i]) {
      StepLaunches(states[i], steps[i], id);
    } else {
      OthersKeepWaiting(states[i], steps[i], id);
    }
  }

  /** A sub-task of a submission as it is stored: queued, its inputs at the remote side, its outputs yet to
      be made. */
  ghost function NewView(s: SubTask, files: map<Uuid, FileSpec>): View {
    View(Some(s.(status := Queuing)),
         map f | f in files && files[f].sub == s.id ::
           File(s.id, files[f].direction, if files[f].direction == IN then RemoteOnly else WaitingCreate),
         {}, {}, false, 0, 0, 0, false)
  }

  lemma StoredIsNew(a: Agent, task: Uuid, body: seq<SubTask>, files: map<Uuid, FileSpec>, j: nat)
    requires AllSafe(a) && NewWork(a, task, body, files) && j < |body|
    ensures ViewOf(Stored(a, task, body, files), body[j].id) == NewView(body[j], files)
  {
    assert body[j] in body;
    QueuedFound(a, task, body, files, j);
    NotThere(a, body[j].id);
    StoredView(a, task, body, files, body[j].id);
    NewOwn(body[j], files);
  }

  lemma QueuedFound(a: Agent, task: Uuid, body: seq<SubTask>, files: map<Uuid, FileSpec>, j: nat)
    requires NewWork(a, task, body, files) && j < |body|
    ensures Find(Queued(body), SubId, body[j].id) == Some(body[j].(status := Queuing))
  {
    QueuedFresh(a, task, body, files);
    FindUnique(Queued(body), SubId, j);
  }

  lemma NewOwn(s: SubTask, files: map<Uuid, FileSpec>)
    ensures map[] + OwnFiles(NewFiles(files), s.id) == NewView(s, files).files
  {
  }

  lemma NotThere(a: Agent, id: Uuid)
    requires AllSafe(a) && forall x :: x in a.subs ==> x.id != id
    ensures ViewOf(a, id) == View(None, map[], {}, {}, false, 0, 0, 0, false)
  {
    assert Safe(ViewOf(a, id));
  }

  /** After a submission each of its sub-tasks is as it was stored, or handed over. */
  lemma SubmitDoes(states: seq<Agent>, steps: seq<Step>, maxTasks: nat, i: nat, j: nat)
    requires Run(states, steps, maxTasks) && i < |steps| && steps[i].Submit? && j < |steps[i].body|
    ensures var v, x := NewView(steps[i].body[j], steps[i].files), ViewOf(states[i + 1], steps[i].body[j].id);
            x == v || Launches(v, x, steps[i].w)
  {
    RunIsSafe(states, steps, maxTasks, i);
    assert ServiceCalls()(states[i], steps[i], states[i + 1]);
    var step := steps[i];
    StoredIsNew(states[i], step.task, step.body, step.files, j);
    SubmitLaunches(states[i], step.task, step.body, step.files, step.w, step.body[j].id);
  }
}
