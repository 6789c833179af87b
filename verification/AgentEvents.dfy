/** What the service calls do to slots and order: the job and deployment events move the records of
    sub-tasks that were dispatched, and a completed report is the only one its sub-task ever gets. */
module AgentEvents {
  import opened Basics
  import opened AgentModel
  import opened AgentStaging
  import opened AgentSlots

  function Sent(a: Agent, id: Uuid): nat {
    SentFor(a.past.sent, id, true) + SentFor(a.past.sent, id, false)
  }

  /** Every consumed or waiting report was sent, and a completed one is the only one of its sub-task. */
  ghost predicate ReportsFit(a: Agent) {
    && (forall i, j :: 0 <= i < j < |a.reports| && (a.reports[i].completed || a.reports[j].completed) ==>
          a.reports[i].sub != a.reports[j].sub)
    && (forall r :: r in a.reports ==> Sent(a, r.sub) > 0 && (r.completed ==> r.sub !in a.past.consumed))
    && (forall id :: id in a.past.consumed ==> Sent(a, id) > 0)
  }

  /** The fields that reports depend on. */
  lemma SameFits(a: Agent, b: Agent)
    requires ReportsFit(a) && b.reports == a.reports && b.past.sent == a.past.sent && b.past.consumed == a.past.consumed
    ensures ReportsFit(b)
  {
    forall id ensures Sent(b, id) == Sent(a, id) {}
  }

  lemma SentAfter(a: Agent, sub: Uuid, completed: bool, id: Uuid)
    ensures Sent(Send(a, sub, completed), id) == Sent(a, id) + if id == sub then 1 else 0
  {
    SentGrows(a.past.sent, Report(sub, completed), id, true);
    SentGrows(a.past.sent, Report(sub, completed), id, false);
  }

  /** A safe report: a completed one is the first, a failed one meets no completed one. */
  lemma SafeReport(a: Agent, sub: Uuid, completed: bool)
    requires WellStored(a) && ReportsFit(a) && Safe(ViewOf(Send(a, sub, completed), sub))
    ensures completed ==> Sent(a, sub) == 0
    ensures forall r :: r in a.reports && r.sub == sub ==> !completed && !r.completed
  {
    SendView(a, sub, completed, sub);
  }

  lemma SendFits(a: Agent, sub: Uuid, completed: bool)
    requires WellStored(a) && ReportsFit(a) && Safe(ViewOf(Send(a, sub, completed), sub))
    ensures ReportsFit(Send(a, sub, completed))
  {
    var b := Send(a, sub, completed);
    SafeReport(a, sub, completed);
    forall id ensures Sent(b, id) >= Sent(a, id) && (id == sub ==> Sent(b, id) > 0) {
      SentAfter(a, sub, completed, id);
    }
    forall i, j | 0 <= i < j < |b.reports| && (b.reports[i].completed || b.reports[j].completed)
      ensures b.reports[i].sub != b.reports[j].sub
    {
      if j == |a.reports| { assert a.reports[i] in a.reports; }
    }
  }

  /** An event: records of dispatched sub-tasks are moved, and reports still fit. */
  ghost predicate Event(a: Agent, b: Agent) {
    Moves(SlotsOf(a), SlotsOf(b)) && ReportsFit(b)
  }

  lemma StaysEvent(a: Agent, b: Agent)
    requires Distinct(Keys(a.subs, SubId)) && ReportsFit(a)
    requires SlotsOf(b) == SlotsOf(a) && b.reports == a.reports && b.past.sent == a.past.sent
    ensures Event(a, b)
  {
    SameFits(a, b);
  }

  lemma EventsTwice(a: Agent, b: Agent, c: Agent)
    requires Event(a, b) && Event(b, c)
    ensures Event(a, c)
  {
    MovesTwice(SlotsOf(a), SlotsOf(b), SlotsOf(c));
  }

  /** A record moved without a report. */
  lemma SetEvent(a: Agent, s: SubTask)
    requires Distinct(Keys(a.subs, SubId)) && ReportsFit(a) && Find(a.subs, SubId, s.id).Some?
    requires var was := Find(a.subs, SubId, s.id).value;
             && s.parent == was.parent && s.status != Queuing && was.status != Queuing
             && (s.id in a.past.consumed ==> s.status == was.status)
    ensures Event(a, SetSub(a, s))
  {
    SetMoves(SlotsOf(a), s);
    SameFits(a, SetSub(a, s));
  }

  /** A sub-task that ended before has the status it is given again. */
  lemma EndsAlike(a: Agent, s: SubTask, status: Status, completed: bool)
    requires WellStored(a) && ReportsFit(a) && Find(a.subs, SubId, s.id) == Some(s) && Safe(ViewOf(a, s.id))
    requires !completed ==> status == Status.Failed
    requires Safe(ViewOf(Send(SetSub(a, s.(status := status)), s.id, completed), s.id))
    ensures s.id in a.past.consumed ==> !completed && s.status == status
  {
    ReportedView(a, s, status, completed, s.id);
  }

  /** A final status together with its report. */
  lemma EndEvent(a: Agent, s: SubTask, status: Status, completed: bool)
    requires WellStored(a) && ReportsFit(a) && Find(a.subs, SubId, s.id) == Some(s) && Safe(ViewOf(a, s.id))
    requires s.status != Queuing && status != Queuing && (!completed ==> status == Status.Failed)
    requires Safe(ViewOf(Send(SetSub(a, s.(status := status)), s.id, completed), s.id))
    ensures Event(a, Send(SetSub(a, s.(status := status)), s.id, completed))
  {
    EndsAlike(a, s, status, completed);
    var mid := SetSub(a, s.(status := status));
    SetEvent(a, s.(status := status));
    SetSubStored(a, s.(status := status));
    SendFits(mid, s.id, completed);
  }

  lemma FailEvent(a: Agent, id: Uuid)
    requires AllSafe(a) && ReportsFit(a) && MayFail(ViewOf(a, id))
    ensures Event(a, FailJob(a, id))
  {
    FailSafe(a, id);
    assert Safe(ViewOf(a, id)) && Safe(ViewOf(FailJob(a, id), id));
    EndEvent(a, Find(a.subs, SubId, id).value, Status.Failed, false);
  }

  /** A sub-task that may be started: no job yet. */
  ghost predicate MayRun(v: View) {
    v.sub.Some? && v.jobs == 0 && v.sub.value.kind == Usecase && v.sub.value.status != Queuing
  }

  lemma RunEvent(a: Agent, id: Uuid, launch: Launch)
    requires AllSafe(a) && ReportsFit(a) && MayRun(ViewOf(a, id))
    ensures Event(a, RunIfReady(a, id, launch))
  {
    var s := Find(a.subs, SubId, id).value;
    var b := RunIfReady(a, id, launch);
    assert Safe(ViewOf(a, id));
    if !AllBoth(a.files, id, IN) || launch == SubmitError {
      StaysEvent(a, b);
    } else if launch == SoftwareMissing {
      FailEvent(a, id);
    } else {
      SetEvent(a, s.(job := Some(launch.job)));
      var mid := SetSub(a, s.(job := Some(launch.job)));
      StaysEvent(mid, b);
      EventsTwice(a, mid, b);
    }
  }

  lemma CompleteEvent(a: Agent, id: Uuid)
    requires WellStored(a) && ReportsFit(a)
    requires AllBoth(a.files, id, OUT) ==> Safe(ViewOf(Send(a, id, true), id))
    ensures Event(a, CompleteIfReady(a, id))
  {
    var b := CompleteIfReady(a, id);
    if AllBoth(a.files, id, OUT) {
      SendFits(a, id, true);
    } else {
      StaysEvent(a, b);
    }
  }

  lemma RunJobEvent(a: Agent, f: Uuid, launch: Launch)
    requires AllSafe(a) && ReportsFit(a) && f in a.files && f !in a.downloads && a.files[f].direction == IN
    requires MayRun(ViewOf(a, a.files[f].sub))
    ensures Event(a, RunJob(a, f, launch))
  {
    var marked := a.(files := a.files[f := a.files[f].(status := Both)]);
    MarkInputSafe(a, f);
    FileView(a, f, Both, a.files[f].sub);
    StaysEvent(a, marked);
    RunEvent(marked, a.files[f].sub, launch);
    EventsTwice(a, marked, RunJob(a, f, launch));
  }

  // ---------------------------------------------------------------- the events

  lemma DownloadDoneEvent(a: Agent, f: Uuid, launch: Launch)
    requires AllSafe(a) && ReportsFit(a) && f in a.downloads && f in a.files
    ensures Event(a, RunJob(a.(downloads := a.downloads - {f}), f, launch))
  {
    DownloadOver(a, f);
    var b := a.(downloads := a.downloads - {f});
    DownloadOff(a, f, a.files[f].sub);
    StaysEvent(a, b);
    RunJobEvent(b, f, launch);
    EventsTwice(a, b, RunJob(b, f, launch));
  }

  lemma DownloadFailedEvent(a: Agent, f: Uuid)
    requires AllSafe(a) && ReportsFit(a) && f in a.downloads && f in a.files
    ensures Event(a, FailJob(a.(downloads := a.downloads - {f}), a.files[f].sub))
  {
    DownloadOver(a, f);
    var b := a.(downloads := a.downloads - {f});
    DownloadOff(a, f, a.files[f].sub);
    StaysEvent(a, b);
    FailEvent(b, a.files[f].sub);
    EventsTwice(a, b, FailJob(b, a.files[f].sub));
  }

  lemma CopyFailedEvent(a: Agent, f: Uuid, launch: Launch)
    requires AllSafe(a) && ReportsFit(a) && f in a.downloads && f in a.files
    ensures Event(a, RunJob(FailJob(a.(downloads := a.downloads - {f}), a.files[f].sub), f, launch))
  {
    var failed := FailJob(a.(downloads := a.downloads - {f}), a.files[f].sub);
    DownloadFailedSafe(a, f);
    DownloadFailedEvent(a, f);
    RunJobEvent(failed, f, launch);
    EventsTwice(a, failed, RunJob(failed, f, launch));
  }

  lemma UploadDoneEvent(a: Agent, f: Uuid)
    requires AllSafe(a) && ReportsFit(a) && f in a.uploads && f in a.files
    ensures Event(a, CompleteJob(a.(uploads := a.uploads - {f}), f))
  {
    var id := a.files[f].sub;
    var b := a.(uploads := a.uploads - {f});
    var marked := b.(files := a.files[f := a.files[f].(status := Both)]);
    UploadDoneSafe(a, f);
    assert Safe(ViewOf(CompleteJob(b, f), id));
    StaysEvent(a, marked);
    CompleteEvent(marked, id);
    EventsTwice(a, marked, CompleteJob(b, f));
  }

  lemma UploadFailedEvent(a: Agent, f: Uuid)
    requires AllSafe(a) && ReportsFit(a) && f in a.uploads && f in a.files
    ensures Event(a, FailJob(a.(uploads := a.uploads - {f}), a.files[f].sub))
  {
    UploadOver(a, f);
    var id := a.files[f].sub;
    var b := a.(uploads := a.uploads - {f});
    DownloadOff(a, f, id);
    assert f in ViewOf(b, id).files && f !in ViewOf(b, id).up;
    assert LostOutput(ViewOf(b, id));
    StaysEvent(a, b);
    FailEvent(b, id);
    EventsTwice(a, b, FailJob(b, id));
  }

  lemma UnsentNotConsumed(a: Agent, id: Uuid)
    requires ReportsFit(a) && Sent(a, id) == 0
    ensures id !in a.past.consumed
  {
  }

  lemma CompletingEvent(a: Agent, id: Uuid)
    requires AllSafe(a) && ReportsFit(a) && Enabled(a, JobObserved(id, JobCompleted))
    ensures Event(a, Complete(a, Find(a.subs, SubId, id).value))
  {
    assert Safe(ViewOf(a, id));
    UnsentNotConsumed(a, id);
    var s := Find(a.subs, SubId, id).value.(status := Completing);
    SetEvent(a, s);
    var mid := SetSub(a, s);
    var b := Complete(a, Find(a.subs, SubId, id).value);
    StaysEvent(mid, b);
    EventsTwice(a, mid, b);
  }

  lemma JobCompletedEvent(a: Agent, id: Uuid)
    requires AllSafe(a) && ReportsFit(a) && Enabled(a, JobObserved(id, JobCompleted))
    ensures Event(a, RefreshStatus(a, id, JobCompleted))
  {
    var s := Find(a.subs, SubId, id).value;
    CompletingEvent(a, id);
    CompletingSafe(a, s);
    DeliveredEvent(Complete(a, s), id);
    EventsTwice(a, Complete(a, s), RefreshStatus(a, id, JobCompleted));
  }

  lemma DeliveredEvent(a: Agent, id: Uuid)
    requires AllSafe(a) && ReportsFit(a)
    requires var v := ViewOf(a, id);
             v.sub.Some? && v.sub.value.status == Completing && v.finished && v.done == 0 && v.failed == 0
    ensures Event(a, Delivered(a, id))
  {
    if FilesOf(a.files, id, OUT) == {} {
      assert AllBoth(a.files, id, OUT);
      CompletedReportSafe(a, id);
      assert Safe(ViewOf(Send(a, id, true), id));
      CompleteEvent(a, id);
    } else {
      StaysEvent(a, Delivered(a, id));
    }
  }

  lemma JobEvent(a: Agent, id: Uuid, state: JobState)
    requires AllSafe(a) && ReportsFit(a) && Enabled(a, JobObserved(id, state))
    ensures Event(a, RefreshStatus(a, id, state))
  {
    assert Safe(ViewOf(a, id));
    if state == JobCompleted {
      JobCompletedEvent(a, id);
    } else if state == JobFailed || state == JobUnknown {
      FailEvent(a, id);
    } else {
      StaysEvent(a, a);
    }
  }

  lemma DeployEvent(a: Agent, id: Uuid, deployed: bool)
    requires AllSafe(a) && ReportsFit(a) && id in a.deploys
    ensures Event(a, EndDeployment(a.(deploys := a.deploys - {id}), id, deployed))
  {
    assert Safe(ViewOf(a, id));
    var b := a.(deploys := a.deploys - {id});
    UndeployedSafe(a, id);
    EndDeploymentSafe(b, id, deployed);
    assert Safe(ViewOf(b, id)) && Safe(ViewOf(EndDeployment(b, id, deployed), id));
    StaysEvent(a, b);
    EndEvent(b, Find(b.subs, SubId, id).value, if deployed then Completed else Status.Failed, deployed);
    EventsTwice(a, b, EndDeployment(b, id, deployed));
  }

  // ---------------------------------------------------------------- handing a sub-task over

  /** A dispatch that goes through starts the sub-task, whatever its kind. */
  ghost predicate Launched(a: Agent, b: Agent, s: SubTask) {
    Starts(SlotsOf(a), SlotsOf(b), s) && ReportsFit(b)
  }

  lemma LaunchedThenEvent(a: Agent, b: Agent, c: Agent, s: SubTask)
    requires Launched(a, b, s) && Event(b, c)
    ensures Launched(a, c, s)
  {
    StartsThenMoves(SlotsOf(a), SlotsOf(b), SlotsOf(c), s);
  }

  /** The slot taken and the new status written, before anything is sent. */
  lemma SetLaunched(a: Agent, t: Uuid, s: SubTask, status: Status)
    requires Distinct(Keys(a.subs, SubId)) && ReportsFit(a) && FirstQueuing(Body(a.subs, t)) == Some(s)
    requires status != Queuing
    ensures Launched(a, SetSub(a.(count := a.count + 1), s.(status := status)), s)
  {
    SetStarts(SlotsOf(a), t, s, status);
    SameFits(a, SetSub(a.(count := a.count + 1), s.(status := status)));
  }

  lemma JobLaunched(a: Agent, t: Uuid, s: SubTask, launch: Launch)
    requires AllSafe(a) && ReportsFit(a) && FirstQueuing(Body(a.subs, t)) == Some(s) && s.kind == Usecase
    ensures Launched(a, EnqueueJob(a.(count := a.count + 1), s, launch), s)
  {
    var counted := a.(count := a.count + 1);
    var b := SetSub(counted, s.(status := Running));
    MemberFound(a.subs, s);
    SetLaunched(a, t, s, Running);
    SameViews(a, counted);
    assert Safe(ViewOf(counted, s.id));
    StatusSafe(counted, s, Running);
    SetSubView(counted, s.(status := Running), s.id);
    var c := EnqueueJob(counted, s, launch);
    if FilesOf(a.files, s.id, IN) == {} {
      RunEvent(b, s.id, launch);
    } else {
      StaysEvent(b, c);
    }
    LaunchedThenEvent(a, b, c, s);
  }

  lemma CollectionLaunched(a: Agent, t: Uuid, s: SubTask, collected: bool)
    requires AllSafe(a) && ReportsFit(a) && FirstQueuing(Body(a.subs, t)) == Some(s) && s.kind == Collection
    ensures Launched(a, EnqueueCollection(a.(count := a.count + 1), s, collected), s)
  {
    var counted := a.(count := a.count + 1);
    var status := if collected then Completed else Status.Failed;
    var b := SetSub(counted, s.(status := status));
    MemberFound(a.subs, s);
    SameViews(a, counted);
    EnqueueCollectionSafe(counted, s, collected);
    assert Safe(ViewOf(EnqueueCollection(counted, s, collected), s.id));
    SetLaunched(a, t, s, status);
    SetSubStored(counted, s.(status := status));
    SendFits(b, s.id, collected);
  }

  lemma DeploymentLaunched(a: Agent, t: Uuid, s: SubTask)
    requires Distinct(Keys(a.subs, SubId)) && ReportsFit(a) && FirstQueuing(Body(a.subs, t)) == Some(s)
    ensures Launched(a, EnqueueDeployment(a.(count := a.count + 1), s), s)
  {
    var b := SetSub(a.(count := a.count + 1), s.(status := Running));
    SetLaunched(a, t, s, Running);
    StaysEvent(b, EnqueueDeployment(a.(count := a.count + 1), s));
    LaunchedThenEvent(a, b, EnqueueDeployment(a.(count := a.count + 1), s), s);
  }

  lemma EnqueueLaunched(a: Agent, t: Uuid, s: SubTask, w: World)
    requires AllSafe(a) && ReportsFit(a) && FirstQueuing(Body(a.subs, t)) == Some(s) && s.kind != Unsupported
    ensures Launched(a, Enqueue(a.(count := a.count + 1), s, w), s)
  {
    match s.kind
    case Usecase => JobLaunched(a, t, s, w.launch);
    case Collection => CollectionLaunched(a, t, s, w.collected);
    case Deployment => DeploymentLaunched(a, t, s);
  }
}
