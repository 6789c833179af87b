/** The theorems about slots, order and stranded tasks, for every run of the agent. */
module AgentOrder {
  import opened Basics
  import opened AgentModel
  import opened Histories
  import opened AgentStaging
  import opened AgentSlots
  import opened AgentEvents
  import opened AgentRuns

  // ---------------------------------------------------------------- new work

  lemma {:induction false} AllQueuedIds(subs: seq<SubTask>, t: Uuid)
    requires forall s :: s in subs ==> s.parent == t && s.status == Queuing
    ensures QueuedIds(subs, t) == Keys(subs, SubId)
  {
    if subs != [] {
      AllQueuedIds(subs[1..], t);
      assert Keys(subs, SubId) == [subs[0].id] + Keys(subs[1..], SubId);
    }
  }

  lemma {:induction false} NoneQueuedIds(subs: seq<SubTask>, t: Uuid)
    requires forall s :: s in subs ==> s.parent != t
    ensures QueuedIds(subs, t) == []
  {
    if subs != [] { NoneQueuedIds(subs[1..], t); }
  }

  lemma NewTaskFinds(tasks: seq<Task>, id: Uuid)
    requires Distinct(Keys(tasks, TaskId)) && Find(tasks, TaskId, id).None?
    ensures var news := tasks + [Task(id, Queuing)];
            && Distinct(Keys(news, TaskId)) && Find(news, TaskId, id) == Some(Task(id, Queuing))
            && forall u :: u != id ==> Find(news, TaskId, u) == Find(tasks, TaskId, u)
  {
    var news := tasks + [Task(id, Queuing)];
    forall u ensures Find(news, TaskId, u) == if u == id then Some(Task(id, Queuing)) else Find(tasks, TaskId, u) {
      FindConcat(tasks, [Task(id, Queuing)], TaskId, u);
    }
    var ks := Keys(news, TaskId);
    forall i, j | 0 <= i < j < |ks| ensures ks[i] != ks[j] {
      if j < |tasks| { DistinctAny(Keys(tasks, TaskId), i, j); } else { assert tasks[i] in tasks; }
    }
  }

  /** The state with the new task stored and marked running, before a sub-task is picked. */
  ghost predicate Arrives(p: Slots, q: Slots, t: Uuid, news: seq<SubTask>) {
    && t !in p.submitted && Distinct(Keys(news, SubId))
    && (forall s :: s in news ==> s.parent == t && s.status == Queuing && Sub(p, s.id).None?)
    && q == p.(tasks := q.tasks, subs := p.subs + news, submitted := p.submitted[t := Keys(news, SubId)])
    && Distinct(Keys(q.subs, SubId)) && Distinct(Keys(q.tasks, TaskId))
    && Find(q.tasks, TaskId, t) == Some(Task(t, Running))
    && forall u :: u != t ==> Find(q.tasks, TaskId, u) == Find(p.tasks, TaskId, u)
  }

  lemma ArrivesSub(p: Slots, q: Slots, t: Uuid, news: seq<SubTask>, id: Uuid)
    requires Arrives(p, q, t, news)
    ensures Sub(q, id) == if Sub(p, id).Some? then Sub(p, id) else Find(news, SubId, id)
  {
    FindConcat(p.subs, news, SubId, id);
  }

  lemma ArrivesQueued(p: Slots, q: Slots, t: Uuid, news: seq<SubTask>, u: Uuid)
    requires Listed(p) && Arrives(p, q, t, news)
    ensures QueuedIds(q.subs, u) == if u == t then Keys(news, SubId) else QueuedIds(p.subs, u)
  {
    QueuedConcat(p.subs, news, u);
    if u == t {
      AllQueuedIds(news, t);
      forall s | s in p.subs ensures s.parent != t { MemberFound(p.subs, s); assert Sub(p, s.id) == Some(s); }
      NoneQueuedIds(p.subs, t);
    } else {
      NoneQueuedIds(news, u);
    }
  }

  lemma ArrivesApart(p: Slots, q: Slots, t: Uuid, news: seq<SubTask>, u: Uuid)
    requires Listed(p) && Arrives(p, q, t, news) && u in p.submitted && InOrder(p, u)
    ensures Apart(p, q, u)
  {
    ArrivesQueued(p, q, t, news, u);
    var l := p.submitted[u];
    forall id | id in l ensures SameSub(Sub(p, id), Sub(q, id), id in p.consumed) {
      ArrivesSub(p, q, t, news, id);
      var i :| 0 <= i < |l| && l[i] == id;
    }
  }

  lemma ArrivesDispatched(p: Slots, q: Slots, t: Uuid, news: seq<SubTask>)
    requires Arrives(p, q, t, news)
    ensures Dispatched(q.subs) == Dispatched(p.subs)
  {
    forall id ensures id in Dispatched(q.subs) <==> id in Dispatched(p.subs) {
      if s :| s in q.subs && s.id == id && s.status != Queuing { assert s in p.subs; }
      if s :| s in p.subs && s.id == id && s.status != Queuing { assert s in q.subs; }
    }
  }

  lemma ArrivesListed(p: Slots, q: Slots, t: Uuid, news: seq<SubTask>)
    requires Listed(p) && Arrives(p, q, t, news)
    ensures Listed(q)
  {
    forall id | Sub(q, id).Some?
      ensures Sub(q, id).value.parent in q.submitted && id in q.submitted[Sub(q, id).value.parent]
    {
      ArrivesSub(p, q, t, news, id);
      if Sub(p, id).None? {
        var i :| 0 <= i < |news| && news[i] == Sub(q, id).value;
        assert Keys(news, SubId)[i] == id;
      }
    }
  }

  lemma ArrivesIdle(p: Slots, q: Slots, t: Uuid, news: seq<SubTask>)
    requires Listed(p) && Arrives(p, q, t, news)
    ensures Idle(q, t)
  {
    ArrivesQueued(p, q, t, news, t);
    var l := q.submitted[t];
    forall i | 0 <= i < |l| ensures Sub(q, l[i]).Some? && Sub(q, l[i]).value.parent == t {
      assert news[i] in q.subs;
      MemberFound(q.subs, news[i]);
    }
  }

  lemma ArrivesOrdered(p: Slots, q: Slots, t: Uuid, news: seq<SubTask>)
    requires Ordered(p) && Arrives(p, q, t, news)
    ensures OrderedBut(q, t) && Idle(q, t) && OthersApart(p, q, t)
  {
    ArrivesListed(p, q, t, news);
    ArrivesIdle(p, q, t, news);
    ArrivesDispatched(p, q, t, news);
    forall id | id in q.consumed ensures Sub(q, id).Some? && Sub(q, id).value.status != Queuing {
      ArrivesSub(p, q, t, news, id);
    }
    forall u | u in p.submitted && u != t ensures Apart(p, q, u) && InOrder(q, u) && Moving(q, u) {
      ArrivesApart(p, q, t, news, u);
      SameInOrder(p, q, u);
    }
  }

  lemma SubmittedFound(p: Slots)
    requires Ordered(p)
    ensures forall t :: t in p.submitted ==> Find(p.tasks, TaskId, t).Some?
  {
    forall t | t in p.submitted ensures Find(p.tasks, TaskId, t).Some? { assert InOrder(p, t); }
  }

  /** The tasks once the new one is stored and marked running. */
  lemma StoredTasks(a: Agent, id: Uuid, body: seq<SubTask>, files: map<Uuid, FileSpec>)
    requires Distinct(Keys(a.tasks, TaskId)) && Find(a.tasks, TaskId, id).None?
    ensures var stored := Stored(a, id, body, files);
            var tasks := SetTask(stored, Task(id, Running)).tasks;
            && Find(stored.tasks, TaskId, id) == Some(Task(id, Queuing))
            && Distinct(Keys(tasks, TaskId)) && Find(tasks, TaskId, id) == Some(Task(id, Running))
            && forall u :: u != id ==> Find(tasks, TaskId, u) == Find(a.tasks, TaskId, u)
  {
    NewTaskFinds(a.tasks, id);
    SetTaskFinds(Stored(a, id, body, files), Task(id, Running));
  }

  /** The sub-tasks once the new ones are stored. */
  lemma StoredSubs(a: Agent, id: Uuid, body: seq<SubTask>, files: map<Uuid, FileSpec>)
    requires Distinct(Keys(a.subs, SubId)) && NewWork(a, id, body, files)
    ensures var news := Queued(body);
            && Stored(a, id, body, files).subs == a.subs + news
            && Distinct(Keys(a.subs + news, SubId)) && Distinct(Keys(news, SubId))
            && forall s :: s in news ==> s.parent == id && s.status == Queuing && Find(a.subs, SubId, s.id).None?
  {
    QueuedFresh(a, id, body, files);
    FreshInserted(a.subs, Queued(body));
    forall s | s in Queued(body) ensures Find(a.subs, SubId, s.id).None? {
      assert forall x :: x in a.subs ==> x.id != s.id;
    }
  }

  lemma StoredArrives(a: Agent, id: Uuid, body: seq<SubTask>, files: map<Uuid, FileSpec>)
    requires Ordered(SlotsOf(a)) && NewWork(a, id, body, files)
    ensures var stored := Stored(a, id, body, files);
            && Find(stored.tasks, TaskId, id) == Some(Task(id, Queuing))
            && Arrives(SlotsOf(a), SlotsOf(SetTask(stored, Task(id, Running))), id, Queued(body))
  {
    QueuedFresh(a, id, body, files);
    StoredTasks(a, id, body, files);
    StoredSubs(a, id, body, files);
    SubmittedFound(SlotsOf(a));
  }

  lemma StoredScheduled(a: Agent, id: Uuid, w: World)
    requires Distinct(Keys(a.tasks, TaskId)) && Find(a.tasks, TaskId, id) == Some(Task(id, Queuing))
    ensures ScheduleById(a, id, w) == Dispatch(SetTask(a, Task(id, Running)), Body(a.subs, id), w)
  {
  }

  /** The state with the new task stored and marked running. */
  function StartedNew(a: Agent, id: Uuid, body: seq<SubTask>, files: map<Uuid, FileSpec>): Agent {
    SetTask(Stored(a, id, body, files), Task(id, Running))
  }

  lemma StartedNewSafe(a: Agent, id: Uuid, body: seq<SubTask>, files: map<Uuid, FileSpec>)
    requires AllSafe(a) && ReportsFit(a) && NewWork(a, id, body, files)
    ensures AllSafe(StartedNew(a, id, body, files)) && ReportsFit(StartedNew(a, id, body, files))
  {
    StoredSafe(a, id, body, files);
    SameViews(Stored(a, id, body, files), StartedNew(a, id, body, files));
    SameFits(a, StartedNew(a, id, body, files));
  }

  lemma StartedNewIdle(a: Agent, id: Uuid, body: seq<SubTask>, files: map<Uuid, FileSpec>)
    requires Ordered(SlotsOf(a)) && NewWork(a, id, body, files)
    ensures var p := SlotsOf(StartedNew(a, id, body, files));
            OrderedBut(p, id) && Idle(p, id) && OthersApart(SlotsOf(a), p, id)
              && SlotsOf(a).submitted.Keys <= p.submitted.Keys
            && (QueuedIds(p.subs, id) == [] <==> body == [])
  {
    StoredArrives(a, id, body, files);
    var p := SlotsOf(StartedNew(a, id, body, files));
    ArrivesOrdered(SlotsOf(a), p, id, Queued(body));
    ArrivesQueued(SlotsOf(a), p, id, Queued(body), id);
  }

  lemma StartedNewNext(a: Agent, id: Uuid, body: seq<SubTask>, files: map<Uuid, FileSpec>, w: World)
    requires Ordered(SlotsOf(a)) && NewWork(a, id, body, files)
    ensures var b := StartedNew(a, id, body, files);
            && EnqueueTask(a, id, body, files, w) == Dispatch(b, Body(b.subs, id), w)
            && b.maxTasks == a.maxTasks && b.count == a.count
  {
    StoredArrives(a, id, body, files);
    NewTaskFinds(a.tasks, id);
    StoredScheduled(Stored(a, id, body, files), id, w);
  }

  lemma SubmitOrdered(a: Agent, id: Uuid, body: seq<SubTask>, files: map<Uuid, FileSpec>, w: World)
    requires AllSafe(a) && ReportsFit(a) && Ordered(SlotsOf(a)) && NewWork(a, id, body, files)
    ensures var b := EnqueueTask(a, id, body, files, w);
            Ordered(SlotsOf(b)) && ReportsFit(b) && OthersApart(SlotsOf(a), SlotsOf(b), id)
  {
    var b := StartedNew(a, id, body, files);
    StartedNewSafe(a, id, body, files);
    StartedNewIdle(a, id, body, files);
    StartedNewNext(a, id, body, files, w);
    DispatchOrdered(b, id, w);
    ApartTwice(SlotsOf(a), SlotsOf(b), SlotsOf(Dispatch(b, Body(b.subs, id), w)), id);
  }

  // ---------------------------------------------------------------- every step

  /** The task a step may schedule. */
  ghost function Concerns(a: Agent, step: Step): Option<Uuid>
    requires Enabled(a, step)
  {
    match step
    case Submit(id, _, _, _) => Some(id)
    case Consume(i, _) =>
      var s := Find(a.subs, SubId, a.reports[i].sub);
      if s.Some? then Some(s.value.parent) else None
    case _ => None
  }

  ghost predicate Keeps(a: Agent, b: Agent) {
    Ordered(SlotsOf(b)) && ReportsFit(b)
  }

  lemma EventKeeps(a: Agent, b: Agent)
    requires Ordered(SlotsOf(a)) && Event(a, b)
    ensures Keeps(a, b) && forall u :: u in a.past.submitted ==> Apart(SlotsOf(a), SlotsOf(b), u)
  {
    MovesOrdered(SlotsOf(a), SlotsOf(b));
    forall u | u in a.past.submitted ensures Apart(SlotsOf(a), SlotsOf(b), u) { MovesApart(SlotsOf(a), SlotsOf(b), u); }
  }

  lemma StepEvent(a: Agent, step: Step)
    requires AllSafe(a) && Ordered(SlotsOf(a)) && ReportsFit(a) && Enabled(a, step)
    requires !step.Submit? && !step.Consume?
    ensures Event(a, Next(a, step))
  {
    match step
    case Tick(w) =>
      NoneWaiting(a, w);
      StaysEvent(a, a);
    case DownloadDone(f, launch) => DownloadDoneEvent(a, f, launch);
    case DownloadFailed(f) => DownloadFailedEvent(a, f);
    case CopyFailed(f, launch) => CopyFailedEvent(a, f, launch);
    case UploadDone(f) => UploadDoneEvent(a, f);
    case UploadFailed(f) => UploadFailedEvent(a, f);
    case JobObserved(id, state) => JobEvent(a, id, state);
    case DeployEnded(id, deployed) => DeployEvent(a, id, deployed);
  }

  lemma NextConsume(a: Agent, i: nat, w: World)
    requires i < |a.reports|
    ensures Next(a, Consume(i, w)) == ConsumeReport(a, i, w)
  {
  }

  lemma ConsumeKeeps(a: Agent, i: nat, w: World)
    requires AllSafe(a) && Ordered(SlotsOf(a)) && ReportsFit(a) && i < |a.reports|
    ensures var b := Next(a, Consume(i, w));
            && Keeps(a, b)
            && forall u :: u in a.past.submitted && Concerns(a, Consume(i, w)) != Some(u) ==>
                 Apart(SlotsOf(a), SlotsOf(b), u)
  {
    NextConsume(a, i, w);
    ReportKeeps(a, i, w);
  }

  lemma ReportKeeps(a: Agent, i: nat, w: World)
    requires AllSafe(a) && Ordered(SlotsOf(a)) && ReportsFit(a) && i < |a.reports|
    ensures var s := Find(a.subs, SubId, a.reports[i].sub);
            var b := ConsumeReport(a, i, w);
            Keeps(a, b) && s.Some? && OthersApart(SlotsOf(a), SlotsOf(b), s.value.parent)
  {
    if a.reports[i].completed {
      CompleteConsumed(a, i, w);
    } else {
      FailConsumed(a, i, w);
    }
  }

  /** Every step keeps slots and order, and leaves the tasks it does not concern alone. */
  lemma StepKeeps(a: Agent, step: Step)
    requires AllSafe(a) && Ordered(SlotsOf(a)) && ReportsFit(a) && Enabled(a, step)
    ensures Keeps(a, Next(a, step))
    ensures forall u :: u in a.past.submitted && Concerns(a, step) != Some(u) ==>
              Apart(SlotsOf(a), SlotsOf(Next(a, step)), u)
  {
    match step
    case Submit(id, body, files, w) => SubmitOrdered(a, id, body, files, w);
    case Consume(i, w) => ConsumeKeeps(a, i, w);
    case _ =>
      StepEvent(a, step);
      EventKeeps(a, Next(a, step));
  }

  // ---------------------------------------------------------------- every run

  /** What every state of a run keeps. */
  ghost predicate Sound(a: Agent, maxTasks: nat) {
    AllSafe(a) && Ordered(SlotsOf(a)) && ReportsFit(a) && a.maxTasks == maxTasks
  }

  lemma EmptySound(maxTasks: nat)
    ensures Sound(EmptyAgent(maxTasks), maxTasks)
  {
    EmptySafe(maxTasks);
    assert Dispatched(SlotsOf(EmptyAgent(maxTasks)).subs) == {};
  }

  lemma StepSound(a: Agent, step: Step, b: Agent)
    requires Sound(a, a.maxTasks) && StepTo(a, step, b)
    ensures Sound(b, a.maxTasks)
  {
    StepSafe(a, step);
    StepKeeps(a, step);
    FrameStays(a, step);
  }

  ghost function SoundStates(maxTasks: nat): Agent -> bool { a => Sound(a, maxTasks) }

  lemma SoundnessKept(maxTasks: nat)
    ensures Kept(SoundStates(maxTasks), ServiceCalls())
  {
    forall a, step, b | Sound(a, maxTasks) && StepTo(a, step, b) ensures Sound(b, maxTasks) { StepSound(a, step, b); }
  }

  lemma RunIsOrdered(states: seq<Agent>, steps: seq<Step>, maxTasks: nat, i: nat)
    requires Run(states, steps, maxTasks) && i < |states|
    ensures Sound(states[i], maxTasks)
  {
    EmptySound(maxTasks);
    SoundnessKept(maxTasks);
    HoldsFrom(states, steps, EmptyAgent(maxTasks), ServiceCalls(), SoundStates(maxTasks), 0, i);
  }

  /** No service changes the limit, and only a submission adds a task. */
  ghost predicate SameFrame(a: Agent, b: Agent) {
    b.maxTasks == a.maxTasks && b.past.submitted == a.past.submitted
  }

  lemma FrameDispatch(a: Agent, body: seq<SubTask>, w: World)
    ensures SameFrame(a, Dispatch(a, body, w))
  {
  }

  lemma FrameById(a: Agent, id: Uuid, w: World)
    ensures SameFrame(a, ScheduleById(a, id, w))
  {
    FrameDispatch(a, Body(a.subs, id), w);
    FrameDispatch(SetTask(a, Task(id, Running)), Body(a.subs, id), w);
  }

  lemma FrameNext(a: Agent, w: World)
    ensures SameFrame(a, ScheduleNext(a, w))
  {
    var t := FirstQueuingTask(a.tasks);
    if t.Some? { FrameById(a, t.value.id, w); }
  }

  lemma FrameProceed(a: Agent, t: Uuid, w: World)
    ensures SameFrame(a, Proceed(a, t, w))
  {
    FrameById(a, t, w);
    var task := Find(a.tasks, TaskId, t);
    if task.Some? { FrameNext(SetTask(a, task.value.(status := Completed)), w); }
  }

  lemma FrameComplete(a: Agent, id: Uuid, w: World)
    ensures SameFrame(a, CompleteSubTask(a, id, w))
  {
    CompleteSubTaskIs(a, id, w);
    var s := Find(a.subs, SubId, id);
    if s.Some? { FrameProceed(Freed(a, s.value), s.value.parent, w); }
  }

  lemma FrameFail(a: Agent, id: Uuid, w: World)
    ensures SameFrame(a, FailSubTask(a, id, w))
  {
    var s := Find(a.subs, SubId, id);
    if s.Some? {
      var t := Find(a.tasks, TaskId, s.value.parent);
      if t.Some? { FrameNext(SetTask(a.(count := a.count - 1), t.value.(status := Status.Failed)), w); }
    }
  }

  lemma FrameRun(a: Agent, f: Uuid, launch: Launch)
    requires f in a.files
    ensures SameFrame(a, RunJob(a, f, launch))
  {
  }

  lemma FrameJobFails(a: Agent, id: Uuid)
    ensures SameFrame(a, FailJob(a, id))
  {
  }

  lemma FrameObserved(a: Agent, id: Uuid, state: JobState)
    ensures SameFrame(a, RefreshStatus(a, id, state))
  {
  }

  lemma FrameDownload(a: Agent, f: Uuid, launch: Launch)
    requires f in a.files
    ensures var id := a.files[f].sub;
            && SameFrame(a, RunJob(a, f, launch)) && SameFrame(a, FailJob(a, id))
            && SameFrame(a, RunJob(FailJob(a, id), f, launch))
  {
    FrameRun(a, f, launch);
    FrameJobFails(a, a.files[f].sub);
    FrameRun(FailJob(a, a.files[f].sub), f, launch);
  }

  lemma FrameConsume(a: Agent, i: nat, w: World)
    requires i < |a.reports|
    ensures var b := Next(a, Consume(i, w));
            b.maxTasks == a.maxTasks && b.past.submitted == a.past.submitted
  {
    if a.reports[i].completed {
      FrameComplete(Taken(a, i), a.reports[i].sub, w);
    } else {
      FrameFail(Taken(a, i), a.reports[i].sub, w);
    }
  }

  lemma FrameSubmit(a: Agent, id: Uuid, body: seq<SubTask>, files: map<Uuid, FileSpec>, w: World)
    requires Enabled(a, Submit(id, body, files, w))
    ensures var b := Next(a, Submit(id, body, files, w));
            b.maxTasks == a.maxTasks && b.past.submitted == a.past.submitted[id := Keys(body, SubId)]
  {
    FrameById(Stored(a, id, body, files), id, w);
  }

  lemma FrameStays(a: Agent, step: Step)
    requires Enabled(a, step)
    ensures Next(a, step).maxTasks == a.maxTasks
    ensures Next(a, step).past.submitted ==
            if step.Submit? then a.past.submitted[step.task := Keys(step.body, SubId)] else a.past.submitted
  {
    match step
    case Submit(id, body, files, w) => FrameSubmit(a, id, body, files, w);
    case Tick(w) => FrameNext(a, w);
    case DownloadDone(f, launch) =>
      if f in a.files { FrameRun(a.(downloads := a.downloads - {f}), f, launch); }
    case DownloadFailed(f) =>
      if f in a.files { FrameJobFails(a.(downloads := a.downloads - {f}), a.files[f].sub); }
    case CopyFailed(f, launch) =>
      if f in a.files { FrameDownload(a.(downloads := a.downloads - {f}), f, launch); }
    case UploadDone(f) =>
    case UploadFailed(f) =>
      if f in a.files { FrameJobFails(a.(uploads := a.uploads - {f}), a.files[f].sub); }
    case JobObserved(id, state) => FrameObserved(a, id, state);
    case DeployEnded(id, deployed) =>
    case Consume(i, w) => FrameConsume(a, i, w);
  }

  lemma OneUnderWay(p: Slots, s: SubTask, r: SubTask)
    requires Ordered(p) && s in p.subs && r in p.subs && s.parent == r.parent
    requires s.id in Outstanding(p) && r.id in Outstanding(p)
    ensures s == r
  {
    SubmittedLast(p, s);
    SubmittedLast(p, r);
    SameRecord(p.subs, s, r);
  }

  lemma SameRecord(subs: seq<SubTask>, s: SubTask, r: SubTask)
    requires Distinct(Keys(subs, SubId)) && s in subs && r in subs && s.id == r.id
    ensures s == r
  {
    MemberFound(subs, s);
    MemberFound(subs, r);
  }

  lemma SubmittedLast(p: Slots, s: SubTask)
    requires Ordered(p) && s in p.subs && s.id in Outstanding(p)
    ensures Distinct(Keys(p.subs, SubId)) && LastStartedOf(p, s.parent) == Some(s.id)
  {
    MemberFound(p.subs, s);
    UnderWay(p, s.id);
  }

  /** The sub-task of a task that was started last. */
  function LastStartedOf(p: Slots, t: Uuid): Option<Uuid> {
    if t in p.submitted && 0 < Started(p, t) <= |p.submitted[t]| then Some(p.submitted[t][Started(p, t) - 1]) else None
  }

  lemma OrderIs(p: Slots, t: Uuid)
    requires t in p.submitted && InOrder(p, t)
    ensures var l := p.submitted[t];
            var k := |l| - |QueuedIds(p.subs, t)|;
            && 0 <= k && QueuedIds(p.subs, t) == l[k..]
            && (forall j :: 0 <= j < k - 1 ==> DoneWith(p, l[j]))
            && (Find(p.tasks, TaskId, t) == Some(Task(t, Completed)) ==>
                  l != [] && forall j :: 0 <= j < |l| ==> DoneWith(p, l[j]))
  {
  }

  function Elements<T(==)>(s: seq<T>): set<T> {
    set x | x in s
  }

  lemma {:induction false} ElementsCount<T>(s: seq<T>)
    ensures |Elements(s)| <= |s| && (|Elements(s)| == |s| <==> Distinct(s))
  {
    if s == [] {
      assert Elements(s) == {};
    } else {
      var front, last := s[..|s| - 1], s[|s| - 1];
      ElementsCount(front);
      assert Elements(s) == Elements(front) + {last};
      assert s == front + [last];
      DistinctConcat(front, [last]);
    }
  }

  /** The counter against the sub-tasks under way: it is short by the reports consumed again. */
  lemma CountIs(p: Slots)
    requires Counted(p) && Distinct(Keys(p.subs, SubId))
    ensures p.count == |Outstanding(p)| - (|p.taken| - |p.consumed|) && |p.consumed| <= |p.taken|
    ensures p.count == |Outstanding(p)| <==> Distinct(p.taken)
  {
    ElementsCount(p.taken);
    assert Elements(p.taken) == p.consumed;
    forall id | id in p.consumed ensures id in Dispatched(p.subs) { DispatchedIs(p.subs, id); }
    assert Outstanding(p) == Dispatched(p.subs) - p.consumed;
    assert Dispatched(p.subs) * p.consumed == p.consumed;
  }

  /** Slot accounting: the counter is the number of sub-tasks ever dispatched less the number of reports
      consumed, and it never exceeds a limit. It is the number of sub-tasks under way, dispatched with no
      report consumed, exactly as long as no sub-task had a second report consumed. At most one sub-task
      of a task is under way. */
  lemma SlotAccounting(states: seq<Agent>, steps: seq<Step>, maxTasks: nat, i: nat)
    requires Run(states, steps, maxTasks) && i < |states|
    ensures states[i].count == |Dispatched(states[i].subs)| - |states[i].past.taken|
    ensures maxTasks != 0 ==> states[i].count <= maxTasks
    ensures states[i].count == |Outstanding(SlotsOf(states[i]))| <==> Distinct(states[i].past.taken)
    ensures var p := SlotsOf(states[i]);
            forall s, r | s in p.subs && r in p.subs && s.parent == r.parent ::
              s.id in Outstanding(p) && r.id in Outstanding(p) ==> s == r
  {
    RunIsOrdered(states, steps, maxTasks, i);
    var p := SlotsOf(states[i]);
    CountIs(p);
    forall s, r | s in p.subs && r in p.subs && s.parent == r.parent && s.id in Outstanding(p) && r.id in Outstanding(p)
      ensures s == r
    {
      OneUnderWay(p, s, r);
    }
  }

  lemma RunInOrder(states: seq<Agent>, steps: seq<Step>, maxTasks: nat, i: nat, t: Uuid)
    requires Run(states, steps, maxTasks) && i < |states| && t in states[i].past.submitted
    ensures InOrder(SlotsOf(states[i]), t)
  {
    RunIsOrdered(states, steps, maxTasks, i);
  }

  /** Submission order: the queued sub-tasks of a task are the tail of the list it was submitted with,
      and everything started before the last one is completed. A completed task has no sub-task left. */
  lemma SubmissionOrder(states: seq<Agent>, steps: seq<Step>, maxTasks: nat, i: nat, t: Uuid)
    requires Run(states, steps, maxTasks) && i < |states| && t in states[i].past.submitted
    ensures var p := SlotsOf(states[i]);
            var l := p.submitted[t];
            var k := |l| - |QueuedIds(p.subs, t)|;
            && 0 <= k && QueuedIds(p.subs, t) == l[k..]
            && (forall j :: 0 <= j < k - 1 ==> DoneWith(p, l[j]))
            && (Find(p.tasks, TaskId, t) == Some(Task(t, Completed)) ==>
                  l != [] && forall j :: 0 <= j < |l| ==> DoneWith(p, l[j]))
  {
    RunInOrder(states, steps, maxTasks, i, t);
    OrderIs(SlotsOf(states[i]), t);
  }

  lemma CompletedIs(p: Slots, t: Uuid)
    requires t in p.submitted && InOrder(p, t) && Moving(p, t) && p.limit == 0
    requires Find(p.tasks, TaskId, t) != Some(Task(t, Status.Failed))
    ensures var l := p.submitted[t];
            Find(p.tasks, TaskId, t) == Some(Task(t, Completed)) <==>
              l != [] && forall j :: 0 <= j < |l| ==> l[j] in p.consumed
  {
    var l := p.submitted[t];
    var k := Started(p, t);
    if Find(p.tasks, TaskId, t) == Some(Task(t, Completed)) {
      forall j | 0 <= j < |l| ensures l[j] in p.consumed { assert DoneWith(p, l[j]); }
    }
  }

  /** Without a limit, a task that has not failed is completed exactly when the report of each of its
      sub-tasks, at least one, was consumed. */
  lemma CompletedExactlyWhen(states: seq<Agent>, steps: seq<Step>, i: nat, t: Uuid)
    requires Run(states, steps, 0) && i < |states| && t in states[i].past.submitted
    requires Find(states[i].tasks, TaskId, t) != Some(Task(t, Status.Failed))
    ensures var l := states[i].past.submitted[t];
            Find(states[i].tasks, TaskId, t) == Some(Task(t, Completed)) <==>
            l != [] && forall j :: 0 <= j < |l| ==> l[j] in states[i].past.consumed
  {
    RunIsOrdered(states, steps, 0, i);
    CompletedIs(SlotsOf(states[i]), t);
  }

  /** The interval tick never changes anything: no task is left waiting to be picked. */
  lemma TickDoesNothing(states: seq<Agent>, steps: seq<Step>, maxTasks: nat, i: nat, w: World)
    requires Run(states, steps, maxTasks) && i < |states|
    ensures Next(states[i], Tick(w)) == states[i]
  {
    RunIsOrdered(states, steps, maxTasks, i);
    NoneWaiting(states[i], w);
  }

  /** A running task with work left and nothing under way. */
  ghost predicate Stranded(a: Agent, t: Uuid) {
    Idle(SlotsOf(a), t) && QueuedIds(a.subs, t) != []
  }

  lemma IdleNotLast(p: Slots, t: Uuid, id: Uuid)
    requires Idle(p, t) && id !in p.consumed
    ensures !(0 < Started(p, t) <= |p.submitted[t]| && p.submitted[t][Started(p, t) - 1] == id)
  {
  }

  lemma IdleNotUnderWay(p: Slots, t: Uuid, id: Uuid)
    requires Ordered(p) && id in Outstanding(p) && Idle(p, t)
    ensures Sub(p, id).Some? && Sub(p, id).value.parent != t
  {
    UnderWay(p, id);
    OutstandingIs(p, id);
    IdleNotLast(p, t, id);
  }

  /** No report is of a sub-task of an idle task: the last one started is over, and had it failed, the
      task had failed. */
  lemma ReportsElsewhere(a: Agent, r: Report, t: Uuid)
    requires AllSafe(a) && Ordered(SlotsOf(a)) && ReportsFit(a) && r in a.reports && Idle(SlotsOf(a), t)
    ensures Find(a.subs, SubId, r.sub).Some? && Find(a.subs, SubId, r.sub).value.parent != t
  {
    if r.sub in a.past.consumed {
      FailedReportStatus(a, r);
      FailedForGood(SlotsOf(a), r.sub);
    } else {
      ReportHoldsSlot(a, r);
      IdleNotUnderWay(SlotsOf(a), t, r.sub);
    }
  }

  lemma ConcernsOther(a: Agent, step: Step, t: Uuid)
    requires AllSafe(a) && Ordered(SlotsOf(a)) && ReportsFit(a) && Enabled(a, step) && Idle(SlotsOf(a), t)
    ensures Concerns(a, step) != Some(t)
  {
    match step
    case Submit(id, body, files, _) => assert Find(a.tasks, TaskId, id).None?;
    case Consume(i, _) =>
      ReportsElsewhere(a, a.reports[i], t);
    case _ =>
  }

  lemma StrandedStays(p: Slots, q: Slots, t: Uuid)
    requires Idle(p, t) && Apart(p, q, t)
    ensures Idle(q, t)
  {
    SameStaggered(p, q, t);
    SameInOrder(p, q, t);
    var k := Started(p, t);
    if k > 0 { assert p.submitted[t][k - 1] in p.submitted[t]; }
  }

  /** The state of a task that is not started any further. */
  ghost predicate StrandedWith(a: Agent, t: Uuid, queued: seq<Uuid>) {
    Stranded(a, t) && QueuedIds(a.subs, t) == queued
  }

  lemma StrandedStep(a: Agent, step: Step, b: Agent, t: Uuid, queued: seq<Uuid>)
    requires AllSafe(a) && Ordered(SlotsOf(a)) && ReportsFit(a) && StepTo(a, step, b)
    requires StrandedWith(a, t, queued)
    ensures StrandedWith(b, t, queued)
  {
    ConcernsOther(a, step, t);
    StepKeeps(a, step);
    StrandedStays(SlotsOf(a), SlotsOf(b), t);
  }

  /** A task that met the limit when its turn came is never taken up again, whatever slots are freed. */
  lemma StrandedForEver(states: seq<Agent>, steps: seq<Step>, maxTasks: nat, i: nat, j: nat, t: Uuid, queued: seq<Uuid>)
    requires Run(states, steps, maxTasks) && i <= j < |states| && StrandedWith(states[i], t, queued)
    ensures StrandedWith(states[j], t, queued)
  {
    RunIsOrdered(states, steps, maxTasks, i);
    StrandingKept(maxTasks, t, queued);
    HoldsFrom(states, steps, EmptyAgent(maxTasks), ServiceCalls(), StrandedStates(maxTasks, t, queued), i, j);
  }

  ghost function StrandedStates(maxTasks: nat, t: Uuid, queued: seq<Uuid>): Agent -> bool {
    a => Sound(a, maxTasks) && StrandedWith(a, t, queued)
  }

  lemma StrandingKept(maxTasks: nat, t: Uuid, queued: seq<Uuid>)
    ensures Kept(StrandedStates(maxTasks, t, queued), ServiceCalls())
  {
    forall a, step, b | Sound(a, maxTasks) && StrandedWith(a, t, queued) && StepTo(a, step, b)
      ensures Sound(b, maxTasks) && StrandedWith(b, t, queued)
    {
      StepSound(a, step, b);
      StrandedStep(a, step, b, t, queued);
    }
  }

  // ---------------------------------------------------------------- what strands a task

  lemma StartsNotIdle(p: Slots, q: Slots, s: SubTask)
    requires Starts(p, q, s) && Idle(p, s.parent) && s.id !in p.consumed
    ensures !Idle(q, s.parent)
  {
    var l := p.submitted[s.parent];
    var k := Started(p, s.parent);
    assert l[k] == l[k..][0] == s.id && Started(q, s.parent) == k + 1;
  }

  /** With a slot to take, an idle task with work left is taken up. */
  lemma QueuedUnconsumed(a: Agent, s: SubTask)
    requires AllSafe(a) && ReportsFit(a) && Find(a.subs, SubId, s.id) == Some(s) && s.status == Queuing
    ensures s.id !in a.past.consumed && s.kind != Unsupported
  {
    assert Safe(ViewOf(a, s.id));
    UnsentNotConsumed(a, s.id);
  }

  lemma HeadSupported(a: Agent, t: Uuid, s: SubTask)
    requires AllSafe(a) && ReportsFit(a) && FirstQueuing(Body(a.subs, t)) == Some(s)
    ensures s.kind != Unsupported
  {
    MemberFound(a.subs, s);
    QueuedUnconsumed(a, s);
  }

  lemma HeadDispatched(a: Agent, t: Uuid, w: World)
    requires Listed(SlotsOf(a)) && Idle(SlotsOf(a), t)
    requires QueuedIds(a.subs, t) != [] && (a.maxTasks != 0 ==> a.count != a.maxTasks)
    ensures var s := FirstQueuing(Body(a.subs, t));
            && s.Some? && s.value.parent == t
            && Dispatch(a, Body(a.subs, t), w) == Enqueue(a.(count := a.count + 1), s.value, w)
  {
    FirstIsHead(a.subs, t);
    RestedNotBusy(SlotsOf(a), t);
    DispatchGoes(a, Body(a.subs, t), w);
  }

  lemma HeadLaunched(a: Agent, t: Uuid, w: World)
    requires AllSafe(a) && ReportsFit(a) && OrderedBut(SlotsOf(a), t) && Idle(SlotsOf(a), t)
    requires QueuedIds(a.subs, t) != [] && (a.maxTasks != 0 ==> a.count != a.maxTasks)
    ensures var s := FirstQueuing(Body(a.subs, t));
            s.Some? && s.value.parent == t && Launched(a, Dispatch(a, Body(a.subs, t), w), s.value)
  {
    HeadDispatched(a, t, w);
    var s := FirstQueuing(Body(a.subs, t)).value;
    HeadSupported(a, t, s);
    EnqueueLaunched(a, t, s, w);
  }

  lemma LaunchedNotIdle(a: Agent, b: Agent, s: SubTask)
    requires AllSafe(a) && ReportsFit(a) && Idle(SlotsOf(a), s.parent) && Launched(a, b, s)
    ensures !Idle(SlotsOf(b), s.parent)
  {
    QueuedUnconsumed(a, s);
    StartsNotIdle(SlotsOf(a), SlotsOf(b), s);
  }

  lemma DispatchTakesUp(a: Agent, t: Uuid, w: World)
    requires AllSafe(a) && ReportsFit(a) && OrderedBut(SlotsOf(a), t) && Idle(SlotsOf(a), t)
    requires QueuedIds(a.subs, t) != [] && (a.maxTasks != 0 ==> a.count != a.maxTasks)
    ensures !Idle(SlotsOf(Dispatch(a, Body(a.subs, t), w)), t)
  {
    HeadLaunched(a, t, w);
    LaunchedNotIdle(a, Dispatch(a, Body(a.subs, t), w), FirstQueuing(Body(a.subs, t)).value);
  }

  /** A submission strands its task exactly when it brings work and every slot is taken. */
  lemma LimitStrands(a: Agent, id: Uuid, body: seq<SubTask>, files: map<Uuid, FileSpec>, w: World)
    requires Sound(a, a.maxTasks) && NewWork(a, id, body, files)
    ensures Stranded(EnqueueTask(a, id, body, files, w), id) <==>
            body != [] && a.maxTasks != 0 && a.count == a.maxTasks
  {
    var b := StartedNew(a, id, body, files);
    StartedNewSafe(a, id, body, files);
    StartedNewIdle(a, id, body, files);
    StartedNewNext(a, id, body, files, w);
    FirstIsHead(b.subs, id);
    if body == [] || (a.maxTasks != 0 && a.count == a.maxTasks) {
      DispatchStops(b, Body(b.subs, id), w);
    } else {
      DispatchTakesUp(b, id, w);
    }
  }

  lemma ApartIdle(p: Slots, q: Slots, t: Uuid)
    requires t in p.submitted && InOrder(p, t) && Apart(p, q, t) && Idle(q, t)
    ensures Idle(p, t)
  {
    var k := Started(p, t);
    if k > 0 { assert p.submitted[t][k - 1] in p.submitted[t]; }
  }

  /** A completed report always leaves a slot for the next sub-task of its task. */
  lemma CompletedTakesUp(a: Agent, i: nat, w: World)
    requires AllSafe(a) && ReportsFit(a) && Ordered(SlotsOf(a)) && i < |a.reports| && a.reports[i].completed
    ensures Find(a.subs, SubId, a.reports[i].sub).Some?
    ensures !Idle(SlotsOf(CompleteSubTask(Taken(a, i), a.reports[i].sub, w)),
                  Find(a.subs, SubId, a.reports[i].sub).value.parent)
  {
    FreedRests(a, i);
    var s := Find(a.subs, SubId, a.reports[i].sub).value;
    FreedFits(a, i, s);
    var freed := Freed(Taken(a, i), s);
    CompleteSubTaskIs(Taken(a, i), s.id, w);
    TakenSafe(a, i);
    assert freed.count == a.count - 1 && freed.maxTasks == a.maxTasks;
    ProceedTakesUp(freed, s.parent, w);
  }

  lemma ProceedTakesUp(a: Agent, t: Uuid, w: World)
    requires AllSafe(a) && ReportsFit(a) && OrderedBut(SlotsOf(a), t) && t in a.past.submitted
    requires Rested(SlotsOf(a), t) && Started(SlotsOf(a), t) > 0 && Find(a.tasks, TaskId, t) == Some(Task(t, Running))
    requires a.maxTasks != 0 ==> a.count != a.maxTasks
    ensures !Idle(SlotsOf(Proceed(a, t, w)), t)
  {
    ProceedIs(a, t, w);
    if QueuedIds(a.subs, t) == [] {
      LastSet(a, t);
      NoneWaiting(SetTask(a, Task(t, Completed)), w);
      CompletedNotIdle(a, t);
    } else {
      RestedIsIdle(SlotsOf(a), t);
      DispatchTakesUp(a, t, w);
    }
  }

  lemma CompletedNotIdle(a: Agent, t: Uuid)
    requires Distinct(Keys(a.tasks, TaskId)) && Find(a.tasks, TaskId, t).Some?
    ensures !Idle(SlotsOf(SetTask(a, Task(t, Completed))), t)
  {
    SetTaskFinds(a, Task(t, Completed));
  }

  lemma FailedNotIdle(a: Agent, i: nat, w: World)
    requires AllSafe(a) && ReportsFit(a) && Ordered(SlotsOf(a)) && i < |a.reports| && !a.reports[i].completed
    ensures Find(a.subs, SubId, a.reports[i].sub).Some?
    ensures !Idle(SlotsOf(FailSubTask(Taken(a, i), a.reports[i].sub, w)),
                  Find(a.subs, SubId, a.reports[i].sub).value.parent)
  {
    FailConsumed(a, i, w);
    var t := Find(a.subs, SubId, a.reports[i].sub).value.parent;
    assert InOrder(SlotsOf(a), t);
    SetTaskFinds(Taken(a, i).(count := a.count - 1), Task(t, Status.Failed));
  }

  /** No step but the submission of a task strands it. */
  lemma OthersDoNotStrand(a: Agent, step: Step, t: Uuid)
    requires Sound(a, a.maxTasks) && Enabled(a, step) && t in a.past.submitted && !Stranded(a, t)
    ensures !Stranded(Next(a, step), t)
  {
    if Concerns(a, step) != Some(t) {
      StepKeeps(a, step);
      assert InOrder(SlotsOf(a), t);
      if Stranded(Next(a, step), t) { ApartIdle(SlotsOf(a), SlotsOf(Next(a, step)), t); }
    } else {
      ConcernedNotIdle(a, step, t);
    }
  }

  lemma ConcernedNotIdle(a: Agent, step: Step, t: Uuid)
    requires Sound(a, a.maxTasks) && Enabled(a, step) && t in a.past.submitted && Concerns(a, step) == Some(t)
    ensures !Idle(SlotsOf(Next(a, step)), t)
  {
    SubmittedFound(SlotsOf(a));
    var i, w := step.nth, step.w;
    NextConsume(a, i, w);
    if a.reports[i].completed { CompletedTakesUp(a, i, w); } else { FailedNotIdle(a, i, w); }
  }

  /** A step that submits a task with work while every slot is taken. */
  ghost predicate Overfull(a: Agent, step: Step, t: Uuid) {
    step.Submit? && step.task == t && step.body != [] && a.maxTasks != 0 && a.count == a.maxTasks
  }

  /** A task is stranded after a step exactly when it was before, or the step submits it with work while
      every slot is taken. */
  lemma StrandedExactlyWhen(states: seq<Agent>, steps: seq<Step>, maxTasks: nat, i: nat, t: Uuid)
    requires Run(states, steps, maxTasks) && i < |steps|
    ensures Stranded(states[i + 1], t) <==> Stranded(states[i], t) || Overfull(states[i], steps[i], t)
  {
    RunIsOrdered(states, steps, maxTasks, i);
    var a, step := states[i], steps[i];
    assert StepTo(a, step, states[i + 1]) by { assert ServiceCalls()(states[i], steps[i], states[i + 1]); }
    if Stranded(a, t) {
      StrandedStep(a, step, states[i + 1], t, QueuedIds(a.subs, t));
    } else if t in a.past.submitted {
      SubmittedFound(SlotsOf(a));
      OthersDoNotStrand(a, step, t);
    } else {
      StrandedNew(a, step, t);
    }
  }

  lemma StrandedNew(a: Agent, step: Step, t: Uuid)
    requires Sound(a, a.maxTasks) && Enabled(a, step) && t !in a.past.submitted
    ensures Stranded(Next(a, step), t) <==> Overfull(a, step, t)
  {
    if step.Submit? && step.task == t {
      LimitStrands(a, t, step.body, step.files, step.w);
    } else {
      FrameStays(a, step);
    }
  }

  // ---------------------------------------------------------------- two runs

  const USECASE := SubTask(2, 1, Usecase, Queuing, None)
  const TWO_INPUTS := map[10 := FileSpec(2, IN), 11 := FileSpec(2, IN)]
  const ANY := World(SubmitError, true)

  /** One sub-task, whose two inputs both fail to arrive, and both failed reports consumed. */
  ghost function FailsTwice(): seq<Step> {
    [Submit(1, [USECASE], TWO_INPUTS, ANY), DownloadFailed(10), DownloadFailed(11), Consume(0, ANY), Consume(0, ANY)]
  }

  /** The agent while sub-task 2 is under way and after it failed. */
  function OneTask(task: Status, sub: Status, count: int, waiting: seq<Report>, downloads: set<Uuid>,
                   past: History): Agent {
    Agent([Task(1, task)], [USECASE.(status := sub)],
          map[10 := File(2, IN, Downloading), 11 := File(2, IN, Downloading)],
          0, count, waiting, downloads, {}, {}, [], past)
  }

  const LOST := Report(2, false)

  ghost function FailsTwiceStates(): seq<Agent> {
    var work := map[1 := [2]];
    [EmptyAgent(0),
     OneTask(Running, Running, 1, [], {10, 11}, History([], {}, {}, [], work)),
     OneTask(Running, Status.Failed, 1, [LOST], {11}, History([LOST], {}, {}, [], work)),
     OneTask(Running, Status.Failed, 1, [LOST, LOST], {}, History([LOST, LOST], {}, {}, [], work)),
     OneTask(Status.Failed, Status.Failed, 0, [LOST], {}, History([LOST, LOST], {}, {2}, [2], work)),
     OneTask(Status.Failed, Status.Failed, -1, [], {}, History([LOST, LOST], {}, {2}, [2, 2], work))]
  }

  /** The agent once the task is stored and marked running. */
  function OneTaskStored(): Agent {
    Agent([Task(1, Running)], [USECASE], map[10 := File(2, IN, RemoteOnly), 11 := File(2, IN, RemoteOnly)],
          0, 0, [], {}, {}, {}, [], History([], {}, {}, [], map[1 := [2]]))
  }

  lemma FailsTwiceNew()
    ensures NewWork(EmptyAgent(0), 1, [USECASE], TWO_INPUTS)
  {
  }

  lemma OneInserted(s: SubTask)
    ensures InsertSubs([], [s]) == [s]
  {
    assert [s][..0] == [];
  }

  lemma OneQueued(s: SubTask)
    requires s.status == Queuing
    ensures Queued([s]) == [s]
  {
  }

  lemma OneRunning(id: Uuid)
    ensures MoveBack([Task(id, Queuing)], TaskId, Task(id, Running)) == [Task(id, Running)]
  {
  }

  lemma FailsTwiceStored()
    ensures StartedNew(EmptyAgent(0), 1, [USECASE], TWO_INPUTS) == OneTaskStored()
  {
    OneQueued(USECASE);
    OneInserted(USECASE);
    OneRunning(1);
    assert NewFiles(TWO_INPUTS) == OneTaskStored().files;
    assert map[] + OneTaskStored().files == OneTaskStored().files;
    assert Keys([USECASE], SubId) == [2];
  }

  lemma FailsTwiceDispatched()
    ensures var b := OneTaskStored();
            Dispatch(b, Body(b.subs, 1), ANY) == FailsTwiceStates()[1]
  {
    var b := OneTaskStored();
    assert Body(b.subs, 1) == [USECASE];
    assert FirstQueuing([USECASE]) == Some(USECASE);
    assert !Held(b, [USECASE]);
    assert FilesOf(b.files, 2, IN) == {10, 11};
    assert MoveBack([USECASE], SubId, USECASE.(status := Running)) == [USECASE.(status := Running)];
  }

  lemma FailsTwiceEnqueued()
    ensures EnqueueTask(EmptyAgent(0), 1, [USECASE], TWO_INPUTS, ANY) == FailsTwiceStates()[1]
  {
    FailsTwiceStarts();
    FailsTwiceDispatched();
  }

  lemma EmptyOrdered(maxTasks: nat)
    ensures Ordered(SlotsOf(EmptyAgent(maxTasks)))
  {
    EmptySound(maxTasks);
  }

  lemma FailsTwiceStarts()
    ensures EnqueueTask(EmptyAgent(0), 1, [USECASE], TWO_INPUTS, ANY) ==
            Dispatch(OneTaskStored(), Body(OneTaskStored().subs, 1), ANY)
  {
    FailsTwiceNew();
    FailsTwiceStored();
    EmptyOrdered(0);
    StartedNewNext(EmptyAgent(0), 1, [USECASE], TWO_INPUTS, ANY);
  }

  lemma FailsTwiceSubmits()
    ensures StepTo(FailsTwiceStates()[0], FailsTwice()[0], FailsTwiceStates()[1])
  {
    FailsTwiceNew();
    FailsTwiceEnqueued();
  }

  lemma FailsTwiceDownloads()
    ensures StepTo(FailsTwiceStates()[1], FailsTwice()[1], FailsTwiceStates()[2])
    ensures StepTo(FailsTwiceStates()[2], FailsTwice()[2], FailsTwiceStates()[3])
  {
    FailsTwiceFails();
    FailsTwiceFailsAgain();
  }

  lemma FailsTwiceFails()
    ensures StepTo(FailsTwiceStates()[1], FailsTwice()[1], FailsTwiceStates()[2])
  {
  }

  lemma FailsTwiceFailsAgain()
    ensures StepTo(FailsTwiceStates()[2], FailsTwice()[2], FailsTwiceStates()[3])
  {
  }

  lemma FailsTwiceFirst()
    ensures StepTo(FailsTwiceStates()[3], FailsTwice()[3], FailsTwiceStates()[4])
  {
  }

  lemma FailsTwiceSecond()
    ensures StepTo(FailsTwiceStates()[4], FailsTwice()[4], FailsTwiceStates()[5])
  {
  }

  lemma FailsTwiceStep(i: nat)
    requires i < 5
    ensures |FailsTwice()| == 5 && |FailsTwiceStates()| == 6
    ensures StepTo(FailsTwiceStates()[i], FailsTwice()[i], FailsTwiceStates()[i + 1])
  {
    if i == 0 {
      FailsTwiceSubmits();
    } else if i < 3 {
      FailsTwiceDownloads();
    } else if i == 3 {
      FailsTwiceFirst();
    } else {
      FailsTwiceSecond();
    }
  }

  /** The counter falls below zero: both failed reports of one sub-task take it down. */
  lemma CountBelowZero()
    ensures Run(FailsTwiceStates(), FailsTwice(), 0)
    ensures |FailsTwiceStates()| == 6 && FailsTwiceStates()[5].count == -1
  {
    FailsTwiceStep(0);
    var states, steps := FailsTwiceStates(), FailsTwice();
    forall i | 0 <= i < |steps| ensures ServiceCalls()(states[i], steps[i], states[i + 1]) { FailsTwiceStep(i); }
  }

  /** Two deployments, submitted to an agent with one slot. */
  ghost function TwoForOneSlot(): seq<Step> {
    [Submit(1, [SubTask(3, 1, Deployment, Queuing, None)], map[], ANY),
     Submit(2, [SubTask(4, 2, Deployment, Queuing, None)], map[], ANY)]
  }

  lemma DeploymentStored(t: Uuid, s: SubTask, maxTasks: nat)
    requires s == SubTask(s.id, t, Deployment, Queuing, None)
    ensures NewWork(EmptyAgent(maxTasks), t, [s], map[])
    ensures var b := StartedNew(EmptyAgent(maxTasks), t, [s], map[]);
            b.tasks == [Task(t, Running)] && b.subs == [s] && b.files == map[] && b.count == 0 && b.maxTasks == maxTasks
  {
    OneQueued(s);
    OneInserted(s);
    OneRunning(t);
    assert Stored(EmptyAgent(maxTasks), t, [s], map[]).tasks == [Task(t, Queuing)];
  }

  lemma DeploymentDispatched(a: Agent, t: Uuid, s: SubTask)
    requires a.subs == [s] && s.kind == Deployment && s.status == Queuing && s.parent == t
    requires a.count == 0 && a.maxTasks > 0
    ensures var b := Dispatch(a, Body(a.subs, t), ANY);
            && b.tasks == a.tasks && b.subs == [s.(status := Running)] && b.files == a.files
            && b.count == 1 && b.maxTasks == a.maxTasks
  {
    assert Body([s], t) == [s];
    assert FirstQueuing([s]) == Some(s);
    OneMoved(s);
  }

  /** A deployment submitted to an empty agent starts. */
  lemma DeploymentStarts(t: Uuid, s: SubTask, maxTasks: nat)
    requires s == SubTask(s.id, t, Deployment, Queuing, None) && maxTasks > 0
    ensures NewWork(EmptyAgent(maxTasks), t, [s], map[])
    ensures var b := EnqueueTask(EmptyAgent(maxTasks), t, [s], map[], ANY);
            && b.tasks == [Task(t, Running)] && b.subs == [s.(status := Running)] && b.files == map[]
            && b.count == 1 && b.maxTasks == maxTasks
  {
    DeploymentStored(t, s, maxTasks);
    EmptyOrdered(maxTasks);
    StartedNewNext(EmptyAgent(maxTasks), t, [s], map[], ANY);
    DeploymentDispatched(StartedNew(EmptyAgent(maxTasks), t, [s], map[]), t, s);
  }

  lemma OneMoved(s: SubTask)
    ensures MoveBack([s], SubId, s.(status := Running)) == [s.(status := Running)]
  {
  }

  lemma FirstStarts()
    ensures var first, second := TwoForOneSlot()[0], TwoForOneSlot()[1];
            && Enabled(EmptyAgent(1), first) && Enabled(Next(EmptyAgent(1), first), second)
            && Next(EmptyAgent(1), first).count == Next(EmptyAgent(1), first).maxTasks == 1
  {
    DeploymentStarts(1, SubTask(3, 1, Deployment, Queuing, None), 1);
  }

  /** The second one is stranded: it has work, nothing under way, and is never taken up. */
  lemma SecondStranded(states: seq<Agent>)
    requires Run(states, TwoForOneSlot(), 1)
    ensures |states| == 3 && Stranded(states[2], 2)
  {
    StrandedExactlyWhen(states, TwoForOneSlot(), 1, 1, 2);
    FirstStarts();
    assert StepTo(states[0], TwoForOneSlot()[0], states[1]) by {
      assert ServiceCalls()(states[0], TwoForOneSlot()[0], states[0 + 1]);
    }
  }

  /** That run exists. */
  lemma SecondReached()
    ensures exists states :: Run(states, TwoForOneSlot(), 1)
  {
    FirstStarts();
    var a, first, second := EmptyAgent(1), TwoForOneSlot()[0], TwoForOneSlot()[1];
    var b := Next(a, first);
    var c := Next(b, second);
    assert StepTo(a, first, b) && StepTo(b, second, c);
    TwoMoves(a, first, b, second, c, ServiceCalls());
    assert TwoForOneSlot() == [first, second];
    assert Run([a, b, c], TwoForOneSlot(), 1);
  }
}
