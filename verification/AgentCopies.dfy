/** Jobs submitted after their sub-task was reported as failed: the one way there is to it. */
module AgentCopies {
  import opened Basics
  import opened AgentModel
  import opened Histories
  import opened AgentStaging
  import opened AgentOrder

  /** An input that will never arrive: its transfer has ended without it. */
  ghost predicate LostInput(v: View) {
    exists f :: f in v.files && v.files[f].direction == IN && v.files[f].status != Both && f !in v.down
  }

  /** A sub-task that was started, has no job and never gets one: no transfer is left that could start it,
      or an input is lost. */
  ghost predicate Doomed(v: View) {
    v.sub.Some? && v.sub.value.status != Queuing && v.jobs == 0 && (v.down == {} || LostInput(v))
  }

  /** What every step but a failed copy does to a sub-task: what is doomed stays so, a job is submitted
      without a report and not for the doomed, and a failed report before any job dooms. */
  ghost predicate Proper(v: View, w: View) {
    && v.jobs <= w.jobs && v.failed <= w.failed
    && (Doomed(v) ==> Doomed(w))
    && (w.jobs > v.jobs ==> w.failed == v.failed)
    && (w.jobs == 0 && w.failed > v.failed ==> Doomed(w))
  }

  /** A change without job or report. */
  ghost predicate Neutral(v: View, w: View) {
    w.jobs == v.jobs && w.failed == v.failed && (Doomed(v) ==> Doomed(w))
  }

  ghost predicate ProperFor(a: Agent, b: Agent, id: Uuid) {
    Proper(ViewOf(a, id), ViewOf(b, id))
  }

  ghost predicate NeutralFor(a: Agent, b: Agent, id: Uuid) {
    Neutral(ViewOf(a, id), ViewOf(b, id))
  }

  lemma NeutralFirst(a: Agent, b: Agent, c: Agent, id: Uuid)
    requires NeutralFor(a, b, id) && ProperFor(b, c, id)
    ensures ProperFor(a, c, id)
  {
  }

  // ---------------------------------------------------------------- starting a job

  /** What an attempt to start the job makes of its own sub-task. */
  ghost function RunView(v: View, launch: Launch): View
    requires v.sub.Some?
  {
    if !Staged(v.files, IN) then v
    else
      match launch
      case SubmitError => v
      case SoftwareMissing => Ended(v, Status.Failed, false)
      case Submitted(job) => v.(sub := Some(v.sub.value.(job := Some(job))), jobs := v.jobs + 1)
  }

  lemma SubmittedView(a: Agent, s: SubTask, job: Uuid, id: Uuid)
    requires Distinct(Keys(a.subs, SubId)) && Find(a.subs, SubId, s.id) == Some(s)
    ensures ViewOf(SetSub(a, s.(job := Some(job))).(jobs := a.jobs + [s.id]), id) ==
            if id == s.id then ViewOf(a, id).(sub := Some(s.(job := Some(job))), jobs := ViewOf(a, id).jobs + 1)
            else ViewOf(a, id)
  {
    SetSubView(a, s.(job := Some(job)), id);
    JobView(SetSub(a, s.(job := Some(job))), s.id, id);
  }

  lemma RunIfReadyIs(a: Agent, sub: Uuid, launch: Launch)
    requires Find(a.subs, SubId, sub).Some?
    ensures var s := Find(a.subs, SubId, sub).value;
            RunIfReady(a, sub, launch) ==
            if !AllBoth(a.files, sub, IN) || launch.SubmitError? then a
            else if launch.SoftwareMissing? then Send(SetSub(a, s.(status := Status.Failed)), sub, false)
            else SetSub(a, s.(job := Some(launch.job))).(jobs := a.jobs + [sub])
  {
  }

  lemma RunIfReadyView(a: Agent, sub: Uuid, launch: Launch, id: Uuid)
    requires Distinct(Keys(a.subs, SubId)) && Find(a.subs, SubId, sub).Some?
    ensures ViewOf(RunIfReady(a, sub, launch), id) ==
            if id == sub then RunView(ViewOf(a, id), launch) else ViewOf(a, id)
  {
    var s := Find(a.subs, SubId, sub).value;
    AllBothIsStaged(a, sub, IN);
    RunIfReadyIs(a, sub, launch);
    match launch
    case SubmitError =>
    case SoftwareMissing => ReportedView(a, s, Status.Failed, false, id);
    case Submitted(job) => SubmittedView(a, s, job, id);
  }

  /** The view once an input has arrived, before the attempt. */
  ghost function Arrived(v: View, f: Uuid): View
    requires f in v.files
  {
    v.(down := v.down - {f}, files := v.files[f := v.files[f].(status := Both)])
  }

  lemma ArrivedLost(v: View, f: Uuid)
    requires f in v.files && f in v.down
    ensures LostInput(v) ==> LostInput(Arrived(v, f))
  {
    if g :| g in v.files && v.files[g].direction == IN && v.files[g].status != Both && g !in v.down {
      assert g != f && g in Arrived(v, f).files;
    }
  }

  /** With every input staged no download is under way. */
  lemma StagedDown(v: View, w: View)
    requires Safe(v) && v.sub.Some? && Staged(w.files, IN) && w.files.Keys == v.files.Keys
    requires forall g :: g in w.down ==> g in v.down && w.files[g] == v.files[g]
    ensures w.down == {}
  {
  }

  lemma RunProper(v: View, f: Uuid, launch: Launch)
    requires Safe(v) && v.sub.Some? && v.sub.value.status != Queuing && v.jobs == 0 && f in v.down
    ensures f in v.files && Proper(v, RunView(Arrived(v, f), launch))
  {
    ArrivedLost(v, f);
    var w := Arrived(v, f);
    if Staged(w.files, IN) {
      StagedDown(v, w);
    }
    if LostInput(w) {
      var g :| g in w.files && w.files[g].direction == IN && w.files[g].status != Both && g !in w.down;
      assert !Staged(w.files, IN);
    }
  }

  lemma RunJobView(a: Agent, f: Uuid, launch: Launch, id: Uuid)
    requires Distinct(Keys(a.subs, SubId)) && f in a.files && Find(a.subs, SubId, a.files[f].sub).Some?
    ensures var v := ViewOf(a, id);
            ViewOf(RunJob(a, f, launch), id) ==
            if id == a.files[f].sub
            then RunView(v.(files := v.files[f := a.files[f].(status := Both)]), launch) else v
  {
    var marked := a.(files := a.files[f := a.files[f].(status := Both)]);
    FileView(a, f, Both, id);
    RunIfReadyView(marked, a.files[f].sub, launch, id);
  }

  /** Taking a command off the channel does not concern the sub-tasks its file is not of. */
  lemma OffElsewhere(a: Agent, f: Uuid, id: Uuid)
    requires f in a.files && a.files[f].sub != id
    ensures ViewOf(a.(downloads := a.downloads - {f}), id) == ViewOf(a, id)
    ensures ViewOf(a.(uploads := a.uploads - {f}), id) == ViewOf(a, id)
  {
    DownloadOff(a, f, id);
    assert f !in ViewOf(a, id).files;
    assert ViewOf(a, id).down - {f} == ViewOf(a, id).down && ViewOf(a, id).up - {f} == ViewOf(a, id).up;
  }

  lemma DownloadDoneProper(a: Agent, f: Uuid, launch: Launch, id: Uuid)
    requires AllSafe(a) && f in a.downloads && f in a.files
    ensures ProperFor(a, RunJob(a.(downloads := a.downloads - {f}), f, launch), id)
  {
    DownloadOver(a, f);
    var b := a.(downloads := a.downloads - {f});
    RunJobView(b, f, launch, id);
    assert Safe(ViewOf(a, id));
    if id == a.files[f].sub {
      DownloadOff(a, f, id);
      RunProper(ViewOf(a, id), f, launch);
    } else {
      OffElsewhere(a, f, id);
    }
  }

  lemma FailView(a: Agent, sub: Uuid, id: Uuid)
    requires Distinct(Keys(a.subs, SubId)) && Find(a.subs, SubId, sub).Some?
    ensures ViewOf(FailJob(a, sub), id) ==
            if id == sub then Ended(ViewOf(a, id), Status.Failed, false) else ViewOf(a, id)
  {
    ReportedView(a, Find(a.subs, SubId, sub).value, Status.Failed, false, id);
  }

  lemma DownloadFailedProper(a: Agent, f: Uuid, id: Uuid)
    requires AllSafe(a) && f in a.downloads && f in a.files
    ensures ProperFor(a, FailJob(a.(downloads := a.downloads - {f}), a.files[f].sub), id)
  {
    DownloadOver(a, f);
    var b := a.(downloads := a.downloads - {f});
    FailView(b, a.files[f].sub, id);
    assert Safe(ViewOf(a, id));
    if id == a.files[f].sub {
      DownloadOff(a, f, id);
      var w := ViewOf(FailJob(b, id), id);
      assert f in w.files && f !in w.down && w.files[f].status == Downloading;
    } else {
      OffElsewhere(a, f, id);
    }
  }

  /** A failed copy of an input of another sub-task. */
  lemma CopyElsewhere(a: Agent, f: Uuid, launch: Launch, id: Uuid)
    requires AllSafe(a) && f in a.downloads && f in a.files && a.files[f].sub != id
    ensures ProperFor(a, RunJob(FailJob(a.(downloads := a.downloads - {f}), a.files[f].sub), f, launch), id)
  {
    var b := a.(downloads := a.downloads - {f});
    var failed := FailJob(b, a.files[f].sub);
    DownloadFailedSafe(a, f);
    OffElsewhere(a, f, id);
    DownloadOver(a, f);
    FailView(b, a.files[f].sub, id);
    RunJobView(failed, f, launch, id);
  }

  /** A failed copy of one of its own: the report is sent whatever comes of the attempt. */
  lemma CopyOwn(a: Agent, f: Uuid, launch: Launch)
    requires AllSafe(a) && f in a.downloads && f in a.files
    ensures var id := a.files[f].sub;
            var b := RunJob(FailJob(a.(downloads := a.downloads - {f}), id), f, launch);
            && ViewOf(b, id).failed > ViewOf(a, id).failed && ViewOf(b, id).jobs >= ViewOf(a, id).jobs
            && (AllBoth(a.files[f := a.files[f].(status := Both)], id, IN) && launch.Submitted? ==>
                  b.jobs == a.jobs + [id] && b.past.sent == a.past.sent + [Report(id, false)])
  {
    var id := a.files[f].sub;
    var b := a.(downloads := a.downloads - {f});
    DownloadFailedSafe(a, f);
    DownloadOver(a, f);
    DownloadOff(a, f, id);
    FailView(b, id, id);
    RunJobView(FailJob(b, id), f, launch, id);
  }

  // ---------------------------------------------------------------- the other events

  /** Once the job is submitted, only that it stays so and that no report is taken back matters. */
  lemma SubmittedProper(v: View, w: View)
    requires v.jobs == 1 && w.jobs == 1 && v.failed <= w.failed
    ensures Proper(v, w)
  {
  }

  lemma UploadDoneProper(a: Agent, f: Uuid, id: Uuid)
    requires AllSafe(a) && f in a.uploads && f in a.files
    ensures ProperFor(a, CompleteJob(a.(uploads := a.uploads - {f}), f), id)
  {
    UploadOver(a, f);
    var sub := a.files[f].sub;
    var marked := a.(uploads := a.uploads - {f}, files := a.files[f := a.files[f].(status := Both)]);
    UploadedView(a, f, id);
    SendView(marked, sub, true, id);
    assert Safe(ViewOf(a, id));
    if id == sub {
      SubmittedProper(ViewOf(a, id), ViewOf(CompleteJob(a.(uploads := a.uploads - {f}), f), id));
    } else {
      OffElsewhere(a, f, id);
    }
  }

  lemma UploadFailedProper(a: Agent, f: Uuid, id: Uuid)
    requires AllSafe(a) && f in a.uploads && f in a.files
    ensures ProperFor(a, FailJob(a.(uploads := a.uploads - {f}), a.files[f].sub), id)
  {
    UploadOver(a, f);
    var b := a.(uploads := a.uploads - {f});
    FailView(b, a.files[f].sub, id);
    assert Safe(ViewOf(a, id));
    if id == a.files[f].sub {
      DownloadOff(a, f, id);
      SubmittedProper(ViewOf(a, id), ViewOf(FailJob(b, id), id));
    } else {
      OffElsewhere(a, f, id);
    }
  }

  lemma CompletedJobView(a: Agent, sub: Uuid, id: Uuid)
    requires AllSafe(a) && Enabled(a, JobObserved(sub, JobCompleted))
    ensures var b := RefreshStatus(a, sub, JobCompleted);
            if id == sub then ViewOf(b, id).jobs == ViewOf(a, id).jobs && ViewOf(b, id).failed == ViewOf(a, id).failed
            else ViewOf(b, id) == ViewOf(a, id)
  {
    var s := Find(a.subs, SubId, sub).value;
    CompletingView(a, s, id);
    DeliveredView(Complete(a, s), sub, id);
  }

  lemma DeliveredView(a: Agent, sub: Uuid, id: Uuid)
    ensures var b := Delivered(a, sub);
            if id == sub then ViewOf(b, id).jobs == ViewOf(a, id).jobs && ViewOf(b, id).failed == ViewOf(a, id).failed
            else ViewOf(b, id) == ViewOf(a, id)
  {
    SendView(a, sub, true, id);
    DeliverView(a, sub, id);
  }

  /** A sub-task whose job is observed has one. */
  lemma ObservedHasJob(a: Agent, sub: Uuid, state: JobState)
    requires AllSafe(a) && Enabled(a, JobObserved(sub, state))
    ensures ViewOf(a, sub).jobs == 1
  {
    assert Safe(ViewOf(a, sub));
  }

  lemma JobProper(a: Agent, sub: Uuid, state: JobState, id: Uuid)
    requires AllSafe(a) && Enabled(a, JobObserved(sub, state))
    ensures ProperFor(a, RefreshStatus(a, sub, state), id)
  {
    ObservedHasJob(a, sub, state);
    match state
    case JobCompleted => CompletedJobView(a, sub, id);
    case JobFailed => JobFailedProper(a, sub, id);
    case JobUnknown => JobFailedProper(a, sub, id);
    case _ =>
  }

  lemma JobFailedProper(a: Agent, sub: Uuid, id: Uuid)
    requires AllSafe(a) && Find(a.subs, SubId, sub).Some? && ViewOf(a, sub).jobs == 1
    ensures ProperFor(a, FailJob(a, sub), id)
  {
    FailView(a, sub, id);
  }

  lemma DeployedView(a: Agent, sub: Uuid, deployed: bool, id: Uuid)
    requires Distinct(Keys(a.subs, SubId)) && Find(a.subs, SubId, sub).Some?
    ensures var b := a.(deploys := a.deploys - {sub});
            var v := ViewOf(a, id);
            ViewOf(EndDeployment(b, sub, deployed), id) ==
            if id != sub then v
            else Ended(v.(deploying := false), if deployed then Completed else Status.Failed, deployed)
  {
    var b := a.(deploys := a.deploys - {sub});
    ReportedView(b, Find(b.subs, SubId, sub).value, if deployed then Completed else Status.Failed, deployed, id);
    assert ViewOf(b, id) == ViewOf(a, id).(deploying := ViewOf(a, id).deploying && id != sub);
  }

  lemma DeployedProper(v: View, status: Status, deployed: bool)
    requires Safe(v) && v.deploying && status != Queuing
    ensures v.sub.Some? && Proper(v, Ended(v.(deploying := false), status, deployed))
  {
    assert v.files == map[];
    assert v.down == {} by { assert forall f :: f in v.down ==> f in v.files; }
  }

  lemma DeployProper(a: Agent, sub: Uuid, deployed: bool, id: Uuid)
    requires AllSafe(a) && sub in a.deploys
    ensures ProperFor(a, EndDeployment(a.(deploys := a.deploys - {sub}), sub, deployed), id)
  {
    var v := ViewOf(a, sub);
    assert Safe(v) && v.deploying;
    DeployedProper(v, if deployed then Completed else Status.Failed, deployed);
    DeployedView(a, sub, deployed, id);
  }

  // ---------------------------------------------------------------- the scheduler

  lemma QueuedNotDoomed(a: Agent, s: SubTask)
    requires AllSafe(a) && Find(a.subs, SubId, s.id) == Some(s) && s.status == Queuing
    ensures Untouched(ViewOf(a, s.id)) && !Doomed(ViewOf(a, s.id))
  {
    assert Safe(ViewOf(a, s.id));
  }

  lemma JobEnqueued(a: Agent, s: SubTask, launch: Launch, id: Uuid)
    requires AllSafe(a) && Find(a.subs, SubId, s.id) == Some(s) && s.status == Queuing
    ensures ProperFor(a, EnqueueJob(a, s, launch), id)
  {
    QueuedNotDoomed(a, s);
    var running := SetSub(a, s.(status := Running));
    SetSubView(a, s.(status := Running), id);
    SetSubView(a, s.(status := Running), s.id);
    if FilesOf(a.files, s.id, IN) == {} {
      RunIfReadyView(running, s.id, launch, id);
    } else {
      FetchView(running, s.id, id);
    }
  }

  lemma CollectionEnqueued(a: Agent, s: SubTask, collected: bool, id: Uuid)
    requires AllSafe(a) && Find(a.subs, SubId, s.id) == Some(s) && s.status == Queuing
    ensures ProperFor(a, EnqueueCollection(a, s, collected), id)
  {
    QueuedNotDoomed(a, s);
    ReportedView(a, s, if collected then Completed else Status.Failed, collected, id);
  }

  lemma DeploymentEnqueued(a: Agent, s: SubTask, id: Uuid)
    requires AllSafe(a) && Find(a.subs, SubId, s.id) == Some(s) && s.status == Queuing
    ensures ProperFor(a, EnqueueDeployment(a, s), id)
  {
    QueuedNotDoomed(a, s);
    var running := SetSub(a, s.(status := Running));
    SetSubView(a, s.(status := Running), id);
    assert ViewOf(EnqueueDeployment(a, s), id) ==
           ViewOf(running, id).(deploying := ViewOf(running, id).deploying || id == s.id);
  }

  lemma EnqueueProper(a: Agent, s: SubTask, w: World, id: Uuid)
    requires AllSafe(a) && Find(a.subs, SubId, s.id) == Some(s) && s.status == Queuing
    ensures ProperFor(a, Enqueue(a, s, w), id)
  {
    match s.kind
    case Usecase => JobEnqueued(a, s, w.launch, id);
    case Collection => CollectionEnqueued(a, s, w.collected, id);
    case Deployment => DeploymentEnqueued(a, s, id);
    case Unsupported =>
  }

  lemma DispatchProper(a: Agent, task: Uuid, w: World, id: Uuid)
    requires AllSafe(a)
    ensures ProperFor(a, Dispatch(a, Body(a.subs, task), w), id)
  {
    var body := Body(a.subs, task);
    DispatchIs(a, body, w);
    var s := FirstQueuing(body);
    if s.Some? {
      MemberFound(a.subs, s.value);
      var counted := a.(count := a.count + 1);
      SameViews(a, counted);
      assert ViewOf(counted, id) == ViewOf(a, id);
      EnqueueProper(counted, s.value, w, id);
    }
  }

  lemma ByIdProper(a: Agent, task: Uuid, w: World, id: Uuid)
    requires AllSafe(a)
    ensures ProperFor(a, ScheduleById(a, task, w), id)
  {
    var started := SetTask(a, Task(task, Running));
    SameViews(a, started);
    assert ViewOf(started, id) == ViewOf(a, id);
    DispatchProper(a, task, w, id);
    DispatchProper(started, task, w, id);
  }

  lemma NextProper(a: Agent, w: World, id: Uuid)
    requires AllSafe(a)
    ensures ProperFor(a, ScheduleNext(a, w), id)
  {
    var t := FirstQueuingTask(a.tasks);
    if t.Some? { ByIdProper(a, t.value.id, w, id); }
  }

  lemma ProceedProper(a: Agent, task: Uuid, w: World, id: Uuid)
    requires AllSafe(a)
    ensures ProperFor(a, Proceed(a, task, w), id)
  {
    var t := Find(a.tasks, TaskId, task);
    if t.Some? {
      var ended := SetTask(a, t.value.(status := Completed));
      SameViews(a, ended);
      assert ViewOf(ended, id) == ViewOf(a, id);
      NextProper(ended, w, id);
      ByIdProper(a, task, w, id);
    }
  }

  lemma FreedNeutral(a: Agent, s: SubTask, id: Uuid)
    requires AllSafe(a) && Find(a.subs, SubId, s.id) == Some(s)
    ensures NeutralFor(a, Freed(a, s), id)
  {
    SetSubView(a, s.(status := Completed), id);
    assert ViewOf(Freed(a, s), id) == ViewOf(SetSub(a, s.(status := Completed)), id);
  }

  lemma CompletedProper(a: Agent, i: nat, w: World, id: Uuid)
    requires AllSafe(a) && i < |a.reports| && a.reports[i].completed
    ensures ProperFor(a, CompleteSubTask(Taken(a, i), a.reports[i].sub, w), id)
  {
    var b := Taken(a, i);
    assert a.reports[i] in a.reports;
    SameViews(a, b);
    assert ViewOf(b, id) == ViewOf(a, id);
    CompleteSubTaskIs(b, a.reports[i].sub, w);
    var s := Find(b.subs, SubId, a.reports[i].sub);
    if s.Some? {
      FreedSafe(b, s.value);
      FreedNeutral(b, s.value, id);
      ProceedProper(Freed(b, s.value), s.value.parent, w, id);
      NeutralFirst(b, Freed(b, s.value), Proceed(Freed(b, s.value), s.value.parent, w), id);
    }
  }

  lemma FailedProper(a: Agent, i: nat, w: World, id: Uuid)
    requires AllSafe(a) && i < |a.reports|
    ensures ProperFor(a, FailSubTask(Taken(a, i), a.reports[i].sub, w), id)
  {
    var b := Taken(a, i);
    FailSubTaskIs(b, a.reports[i].sub, w);
    var freed := b.(count := b.count - 1);
    SameViews(a, freed);
    assert ViewOf(freed, id) == ViewOf(a, id);
    var s := Find(b.subs, SubId, a.reports[i].sub);
    var t := if s.None? then None else Find(b.tasks, TaskId, s.value.parent);
    if t.Some? {
      var ended := SetTask(freed, t.value.(status := Status.Failed));
      SameViews(a, ended);
      assert ViewOf(ended, id) == ViewOf(a, id);
      NextProper(ended, w, id);
    }
  }

  lemma StoredNeutral(a: Agent, task: Uuid, body: seq<SubTask>, files: map<Uuid, FileSpec>, id: Uuid)
    requires AllSafe(a) && NewWork(a, task, body, files)
    ensures NeutralFor(a, Stored(a, task, body, files), id)
  {
    StoredView(a, task, body, files, id);
    StoredOwnFiles(a, task, body, files, id);
    var v := ViewOf(a, id);
    if v.sub.Some? { assert v.files + OwnFiles(NewFiles(files), id) == v.files; }
  }

  lemma SubmitProper(a: Agent, task: Uuid, body: seq<SubTask>, files: map<Uuid, FileSpec>, w: World, id: Uuid)
    requires AllSafe(a) && NewWork(a, task, body, files)
    ensures ProperFor(a, EnqueueTask(a, task, body, files, w), id)
  {
    var stored := Stored(a, task, body, files);
    StoredSafe(a, task, body, files);
    StoredNeutral(a, task, body, files, id);
    ByIdProper(stored, task, w, id);
    NeutralFirst(a, stored, ScheduleById(stored, task, w), id);
  }

  // ---------------------------------------------------------------- every step and every run

  /** The step reports a failed copy of an input of the sub-task. */
  ghost predicate CopyFails(a: Agent, step: Step, id: Uuid) {
    step.CopyFailed? && step.file in a.files && a.files[step.file].sub == id
  }

  lemma TransfersKnown(a: Agent)
    requires AllSafe(a)
    ensures a.downloads <= a.files.Keys && a.uploads <= a.files.Keys
  {
  }

  lemma StepProper(a: Agent, step: Step, id: Uuid)
    requires AllSafe(a) && Enabled(a, step) && !CopyFails(a, step, id)
    ensures ProperFor(a, Next(a, step), id)
  {
    TransfersKnown(a);
    match step
    case Submit(task, body, files, w) => SubmitProper(a, task, body, files, w, id);
    case Tick(w) => NextProper(a, w, id);
    case DownloadDone(f, launch) => DownloadDoneProper(a, f, launch, id);
    case DownloadFailed(f) => DownloadFailedProper(a, f, id);
    case CopyFailed(f, launch) => CopyElsewhere(a, f, launch, id);
    case UploadDone(f) => UploadDoneProper(a, f, id);
    case UploadFailed(f) => UploadFailedProper(a, f, id);
    case JobObserved(sub, state) => JobProper(a, sub, state, id);
    case DeployEnded(sub, deployed) => DeployProper(a, sub, deployed, id);
    case Consume(i, w) =>
      if a.reports[i].completed { CompletedProper(a, i, w, id); } else { FailedProper(a, i, w, id); }
  }

  /** A copy of an input of the sub-task has failed in one of the first steps. */
  ghost predicate CopyFailedBefore(states: seq<Agent>, steps: seq<Step>, n: nat, id: Uuid)
    requires n <= |steps| <= |states|
  {
    exists j :: 0 <= j < n && CopyFails(states[j], steps[j], id)
  }

  lemma CopyFailedNext(states: seq<Agent>, steps: seq<Step>, n: nat, id: Uuid)
    requires n < |steps| <= |states|
    ensures CopyFailedBefore(states, steps, n + 1, id) <==>
            CopyFailedBefore(states, steps, n, id) || CopyFails(states[n], steps[n], id)
  {
  }

  /** What holds of a sub-task while it has no job: a failed copy was reported, and without one a
      failed report dooms it. */
  ghost predicate Explained(v: View, copied: bool) {
    && (copied ==> v.failed > 0)
    && (v.jobs == 0 && v.failed > 0 && !copied ==> Doomed(v))
  }

  lemma StepTaken(states: seq<Agent>, steps: seq<Step>, maxTasks: nat, i: nat)
    requires Run(states, steps, maxTasks) && i < |steps|
    ensures StepTo(states[i], steps[i], states[i + 1]) && AllSafe(states[i])
  {
    RunIsSafe(states, steps, maxTasks, i);
    assert ServiceCalls()(states[i], steps[i], states[i + 1]);
  }

  /** What a step does to a sub-task: a failed report when it reports a failed copy, else a proper step. */
  ghost predicate Steps(v: View, w: View, fails: bool) {
    if fails then w.failed > v.failed && w.jobs >= v.jobs else Proper(v, w)
  }

  lemma OneStep(a: Agent, step: Step, b: Agent, id: Uuid)
    requires AllSafe(a) && StepTo(a, step, b)
    ensures Steps(ViewOf(a, id), ViewOf(b, id), CopyFails(a, step, id))
  {
    if CopyFails(a, step, id) {
      CopyOwn(a, step.file, step.launch);
    } else {
      StepProper(a, step, id);
    }
  }

  lemma RunSteps(states: seq<Agent>, steps: seq<Step>, maxTasks: nat, i: nat, id: Uuid)
    requires Run(states, steps, maxTasks) && i < |steps|
    ensures Steps(ViewOf(states[i], id), ViewOf(states[i + 1], id), CopyFails(states[i], steps[i], id))
  {
    StepTaken(states, steps, maxTasks, i);
    OneStep(states[i], steps[i], states[i + 1], id);
  }

  lemma ExplainedNext(v: View, w: View, copied: bool, fails: bool)
    requires Explained(v, copied) && Steps(v, w, fails)
    ensures Explained(w, copied || fails)
  {
  }

  lemma EmptyExplained(maxTasks: nat, id: Uuid)
    ensures Explained(ViewOf(EmptyAgent(maxTasks), id), false)
  {
  }

  lemma {:induction false} RunExplained(states: seq<Agent>, steps: seq<Step>, maxTasks: nat, i: nat, id: Uuid)
    requires Run(states, steps, maxTasks) && i <= |steps|
    ensures Explained(ViewOf(states[i], id), CopyFailedBefore(states, steps, i, id))
  {
    if i == 0 {
      EmptyExplained(maxTasks, id);
    } else {
      RunExplained(states, steps, maxTasks, i - 1, id);
      ExplainedOn(states, steps, maxTasks, i - 1, id);
    }
  }

  lemma ExplainedOn(states: seq<Agent>, steps: seq<Step>, maxTasks: nat, i: nat, id: Uuid)
    requires Run(states, steps, maxTasks) && i < |steps|
    requires Explained(ViewOf(states[i], id), CopyFailedBefore(states, steps, i, id))
    ensures Explained(ViewOf(states[i + 1], id), CopyFailedBefore(states, steps, i + 1, id))
  {
    CopyFailedNext(states, steps, i, id);
    RunSteps(states, steps, maxTasks, i, id);
    ExplainedNext(ViewOf(states[i], id), ViewOf(states[i + 1], id), CopyFailedBefore(states, steps, i, id),
                  CopyFails(states[i], steps[i], id));
  }

  /** One step that submits the job. */
  lemma JobStep(v: View, w: View, copied: bool, fails: bool)
    requires Safe(v) && Safe(w) && Explained(v, copied) && w.jobs > v.jobs && Steps(v, w, fails)
    ensures w.failed > 0 <==> copied || fails
  {
  }

  lemma SafeViews(states: seq<Agent>, steps: seq<Step>, maxTasks: nat, i: nat, id: Uuid)
    requires Run(states, steps, maxTasks) && i <= |steps|
    ensures Safe(ViewOf(states[i], id))
  {
    RunIsSafe(states, steps, maxTasks, i);
  }

  lemma JobOn(states: seq<Agent>, steps: seq<Step>, maxTasks: nat, i: nat, id: Uuid, copied: bool)
    requires Run(states, steps, maxTasks) && i < |steps| && Explained(ViewOf(states[i], id), copied)
    requires ViewOf(states[i + 1], id).jobs > ViewOf(states[i], id).jobs
    ensures ViewOf(states[i + 1], id).failed > 0 <==> copied || CopyFails(states[i], steps[i], id)
  {
    RunSteps(states, steps, maxTasks, i, id);
    SafeViews(states, steps, maxTasks, i, id);
    SafeViews(states, steps, maxTasks, i + 1, id);
    JobStep(ViewOf(states[i], id), ViewOf(states[i + 1], id), copied, CopyFails(states[i], steps[i], id));
  }

  /** In every run, when the job of a sub-task is submitted, a failed report of that sub-task has been
      sent exactly when a copy of one of its inputs has failed, in that step or before: the report and
      the attempt to start the job go out together, and no other failed report leaves a job to come. */
  lemma JobAfterFailure(states: seq<Agent>, steps: seq<Step>, maxTasks: nat, i: nat, id: Uuid)
    requires Run(states, steps, maxTasks) && i < |steps|
    requires Occurrences(states[i + 1].jobs, id) > Occurrences(states[i].jobs, id)
    ensures SentFor(states[i + 1].past.sent, id, false) > 0 <==> CopyFailedBefore(states, steps, i + 1, id)
  {
    RunExplained(states, steps, maxTasks, i, id);
    CopyFailedNext(states, steps, i, id);
    JobOn(states, steps, maxTasks, i, id, CopyFailedBefore(states, steps, i, id));
  }

  // ---------------------------------------------------------------- a run that does it

  const JOB: Launch := Submitted(7)

  /** One sub-task with two inputs: the copy of the first fails, the second arrives. */
  ghost function CopyThenArrival(): seq<Step> {
    [Submit(1, [USECASE], TWO_INPUTS, ANY), CopyFailed(10, JOB), DownloadDone(11, JOB)]
  }

  ghost function CopyThenArrivalStates(): seq<Agent> {
    var work := map[1 := [2]];
    var both := map[10 := File(2, IN, Both), 11 := File(2, IN, Both)];
    [EmptyAgent(0),
     FailsTwiceStates()[1],
     Agent([Task(1, Running)], [USECASE.(status := Status.Failed)], both[11 := File(2, IN, Downloading)],
           0, 1, [LOST], {11}, {}, {}, [], History([LOST], {}, {}, [], work)),
     Agent([Task(1, Running)], [USECASE.(status := Status.Failed, job := Some(7))], both,
           0, 1, [LOST], {}, {}, {}, [2], History([LOST], {}, {}, [], work))]
  }

  lemma CopyStep()
    ensures StepTo(CopyThenArrivalStates()[1], CopyThenArrival()[1], CopyThenArrivalStates()[2])
  {
    var a, b := CopyThenArrivalStates()[1], CopyThenArrivalStates()[2];
    assert b.files == a.files[10 := File(2, IN, Both)];
    assert 11 in FilesOf(b.files, 2, IN) && !AllBoth(b.files, 2, IN);
  }

  lemma ArrivalStep()
    ensures StepTo(CopyThenArrivalStates()[2], CopyThenArrival()[2], CopyThenArrivalStates()[3])
  {
    var a, b := CopyThenArrivalStates()[2], CopyThenArrivalStates()[3];
    assert b.files == a.files[11 := File(2, IN, Both)];
    assert AllBoth(b.files, 2, IN);
  }

  /** The job is submitted after its sub-task was reported as failed. */
  lemma JobOfTheFailed()
    ensures Run(CopyThenArrivalStates(), CopyThenArrival(), 0)
    ensures |CopyThenArrivalStates()| == 4
    ensures CopyThenArrivalStates()[2].past.sent == [LOST] && CopyThenArrivalStates()[2].jobs == []
    ensures CopyThenArrivalStates()[3].jobs == [2]
  {
    FailsTwiceSubmits();
    CopyStep();
    ArrivalStep();
    var states, steps := CopyThenArrivalStates(), CopyThenArrival();
    assert StepTo(states[0], steps[0], states[1]);
    forall i | 0 <= i < |steps| ensures ServiceCalls()(states[i], steps[i], states[i + 1]) {
      assert i == 0 || i == 1 || i == 2;
    }
  }
}
