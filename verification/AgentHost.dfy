/** The agent as the object its services share: repository vectors, slot counter and channels, updated
    in place. Every call leaves the state the model says, and serving any call keeps what every run keeps. */
module AgentHost {
  import opened Basics
  import opened AgentModel
  import AgentOrder

  lemma MarkOne(files: map<Uuid, File>, some: set<Uuid>, f: Uuid, status: FileStatus)
    requires f in files && f !in some
    ensures MarkAll(files, some + {f}, status) ==
            MarkAll(files, some, status)[f := MarkAll(files, some, status)[f].(status := status)]
  {
    assert MarkAll(files, some + {f}, status).Keys == files.Keys;
  }

  /** One more file marked. */
  lemma MarkStep(was: map<Uuid, File>, now: map<Uuid, File>, some: set<Uuid>, f: Uuid, status: FileStatus)
    requires f in was && f !in some && now == MarkAll(was, some, status)
    ensures f in now && now[f := now[f].(status := status)] == MarkAll(was, some + {f}, status)
  {
    MarkOne(was, some, f, status);
  }

  lemma MarkNone(files: map<Uuid, File>, status: FileStatus)
    ensures MarkAll(files, {}, status) == files
  {
  }

  class Host {
    var tasks: seq<Task>
    var subs: seq<SubTask>
    var files: map<Uuid, File>
    const maxTasks: nat
    var count: int
    var reports: seq<Report>
    var downloads: set<Uuid>
    var uploads: set<Uuid>
    var deploys: set<Uuid>
    var jobs: seq<Uuid>
    ghost var past: History

    ghost function State(): Agent
      reads this
    {
      Agent(tasks, subs, files, maxTasks, count, reports, downloads, uploads, deploys, jobs, past)
    }

    /** Staging safety, slots and order. */
    ghost predicate Valid()
      reads this
    {
      AgentOrder.Sound(State(), maxTasks)
    }

    constructor (max: nat)
      ensures Valid()
      ensures State() == Agent([], [], map[], max, 0, [], {}, {}, {}, [], History([], {}, {}, [], map[]))
    {
      AgentOrder.EmptySound(max);
      tasks, subs, files, maxTasks, count := [], [], map[], max, 0;
      reports, downloads, uploads, deploys, jobs := [], {}, {}, {}, [];
      past := History([], {}, {}, [], map[]);
    }

    // -------------------------------------------------------------- repository and reports

    method UpdateTask(t: Task)
      modifies this`tasks
      ensures State() == SetTask(old(State()), t)
    {
      var i := FindIndex(tasks, TaskId, t.id);
      if i.Some? { tasks := RemoveAt(tasks, i.value) + [t]; }
    }

    method UpdateSub(s: SubTask)
      modifies this`subs
      ensures State() == SetSub(old(State()), s)
    {
      var i := FindIndex(subs, SubId, s.id);
      if i.Some? { subs := RemoveAt(subs, i.value) + [s]; }
    }

    method InsertSub(s: SubTask)
      modifies this`subs
      ensures State() == old(State()).(subs := Insert(old(subs), SubId, s))
    {
      var i := FindIndex(subs, SubId, s.id);
      if i.Some? { subs := RemoveAt(subs, i.value); }
      subs := subs + [s];
    }

    method UpdateFileStatus(f: Uuid, status: FileStatus)
      requires f in files
      modifies this`files
      ensures State() == old(State()).(files := old(files)[f := old(files)[f].(status := status)])
    {
      files := files[f := files[f].(status := status)];
    }

    method ReportEnd(sub: Uuid, completed: bool)
      modifies this`reports, this`past
      ensures State() == Send(old(State()), sub, completed)
    {
      reports := reports + [Report(sub, completed)];
      past := past.(sent := past.sent + [Report(sub, completed)]);
    }

    // -------------------------------------------------------------- the job service

    method InternalRunJob(id: Uuid, launch: Launch)
      modifies this
      ensures State() == RunIfReady(old(State()), id, launch)
    {
      if forall f | f in files :: files[f].sub == id && files[f].direction == IN ==> files[f].status == Both {
        assert AllBoth(files, id, IN);
        var s := Find(subs, SubId, id);
        if s.Some? {
          match launch
          case SubmitError =>
          case SoftwareMissing =>
            UpdateSub(s.value.(status := Status.Failed));
            ReportEnd(id, false);
          case Submitted(job) =>
            UpdateSub(s.value.(job := Some(job)));
            jobs := jobs + [id];
        }
      } else {
        var f :| f in files && files[f].sub == id && files[f].direction == IN && files[f].status != Both;
        assert f in FilesOf(files, id, IN);
      }
    }

    method InternalCompleteJob(id: Uuid)
      modifies this`reports, this`past
      ensures State() == CompleteIfReady(old(State()), id)
    {
      if forall f | f in files :: files[f].sub == id && files[f].direction == OUT ==> files[f].status == Both {
        assert AllBoth(files, id, OUT);
        ReportEnd(id, true);
      } else {
        var f :| f in files && files[f].sub == id && files[f].direction == OUT && files[f].status != Both;
        assert f in FilesOf(files, id, OUT);
      }
    }

    /** Every input is marked and sent for, one by one. */
    method Fetch(ins: set<Uuid>)
      requires ins <= files.Keys
      modifies this`files, this`downloads
      ensures files == MarkAll(old(files), ins, Downloading) && downloads == old(downloads) + ins
    {
      var todo := ins;
      ghost var was, sent := files, downloads;
      MarkNone(files, Downloading);
      while todo != {}
        invariant todo <= ins && files.Keys == was.Keys
        invariant files == MarkAll(was, ins - todo, Downloading)
        invariant downloads == sent + (ins - todo)
        decreases |todo|
      {
        var f :| f in todo;
        MarkStep(was, files, ins - todo, f, Downloading);
        files := files[f := files[f].(status := Downloading)];
        downloads := downloads + {f};
        assert ins - (todo - {f}) == ins - todo + {f};
        todo := todo - {f};
      }
      assert ins - todo == ins;
    }

    /** Every output is sent and marked, one by one. */
    method Deliver(outs: set<Uuid>)
      requires outs <= files.Keys
      modifies this`files, this`uploads
      ensures files == MarkAll(old(files), outs, Uploading) && uploads == old(uploads) + outs
    {
      var todo := outs;
      ghost var was, sent := files, uploads;
      MarkNone(files, Uploading);
      while todo != {}
        invariant todo <= outs && files.Keys == was.Keys
        invariant files == MarkAll(was, outs - todo, Uploading)
        invariant uploads == sent + (outs - todo)
        decreases |todo|
      {
        var f :| f in todo;
        MarkStep(was, files, outs - todo, f, Uploading);
        uploads := uploads + {f};
        files := files[f := files[f].(status := Uploading)];
        assert outs - (todo - {f}) == outs - todo + {f};
        todo := todo - {f};
      }
      assert outs - todo == outs;
    }

    method EnqueueUsecase(s: SubTask, launch: Launch)
      modifies this
      ensures State() == EnqueueJob(old(State()), s, launch)
    {
      var ins := FilesOf(files, s.id, IN);
      if ins == {} {
        UpdateSub(s.(status := Running));
        InternalRunJob(s.id, launch);
      } else {
        Fetch(ins);
        UpdateSub(s.(status := Running));
      }
    }

    method OnDownloaded(f: Uuid, launch: Launch)
      requires f in files
      modifies this
      ensures State() == RunJob(old(State()), f, launch)
    {
      var sub := files[f].sub;
      UpdateFileStatus(f, Both);
      InternalRunJob(sub, launch);
    }

    method OnUploaded(f: Uuid)
      requires f in files
      modifies this
      ensures State() == CompleteJob(old(State()), f)
    {
      var sub := files[f].sub;
      UpdateFileStatus(f, Both);
      InternalCompleteJob(sub);
    }

    method OnTransferFailed(id: Uuid)
      modifies this
      ensures State() == FailJob(old(State()), id)
    {
      var s := Find(subs, SubId, id);
      if s.Some? {
        UpdateSub(s.value.(status := Status.Failed));
        ReportEnd(id, false);
      }
    }

    method Refresh(id: Uuid, state: JobState)
      modifies this
      ensures State() == RefreshStatus(old(State()), id, state)
    {
      var s := Find(subs, SubId, id);
      if s.None? { return; }
      match state
      case JobFailed =>
        UpdateSub(s.value.(status := Status.Failed));
        ReportEnd(id, false);
      case JobUnknown =>
        UpdateSub(s.value.(status := Status.Failed));
        ReportEnd(id, false);
      case JobCompleted =>
        MarkCompleting(s.value);
        SendOutputs(id);
      case _ =>
    }

    method MarkCompleting(s: SubTask)
      modifies this
      ensures State() == Complete(old(State()), s)
    {
      UpdateSub(s.(status := Completing));
      past := past.(finished := past.finished + {s.id});
    }

    /** The outputs of a completed job, or its report when there are none. */
    method SendOutputs(id: Uuid)
      modifies this
      ensures State() == Delivered(old(State()), id)
    {
      var outs := FilesOf(files, id, OUT);
      if outs == {} {
        InternalCompleteJob(id);
      } else {
        Deliver(outs);
      }
    }

    // -------------------------------------------------------------- the other two services

    method Collect(s: SubTask, collected: bool)
      modifies this
      ensures State() == EnqueueCollection(old(State()), s, collected)
    {
      UpdateSub(s.(status := if collected then Completed else Status.Failed));
      ReportEnd(s.id, collected);
    }

    method Deploy(s: SubTask)
      modifies this
      ensures State() == EnqueueDeployment(old(State()), s)
    {
      deploys := deploys + {s.id};
      UpdateSub(s.(status := Running));
    }

    method OnDeployed(id: Uuid, deployed: bool)
      modifies this
      ensures State() == EndDeployment(old(State()), id, deployed)
    {
      var s := Find(subs, SubId, id);
      if s.Some? {
        UpdateSub(s.value.(status := if deployed then Completed else Status.Failed));
        ReportEnd(id, deployed);
      }
    }

    // -------------------------------------------------------------- the scheduler

    method HandOver(s: SubTask, w: World)
      modifies this
      ensures State() == Enqueue(old(State()), s, w)
    {
      match s.kind
      case Usecase => EnqueueUsecase(s, w.launch);
      case Collection => Collect(s, w.collected);
      case Deployment => Deploy(s);
      case Unsupported =>
    }

    method Schedule(id: Uuid, w: World)
      modifies this
      ensures State() == ScheduleById(old(State()), id, w)
    {
      var t := Find(tasks, TaskId, id);
      if t.None? { return; }
      var body := Body(subs, id);
      if t.value.status == Queuing {
        UpdateTask(Task(id, Running));
      } else if t.value.status != Running {
        return;
      }
      Pick(body, w);
    }

    /** The scan for a sub-task that runs or completes. */
    static method UnderWay(body: seq<SubTask>) returns (busy: bool)
      ensures busy == Busy(body)
    {
      for i := 0 to |body|
        invariant forall j :: 0 <= j < i ==> body[j].status != Running && body[j].status != Completing
      {
        if body[i].status == Running || body[i].status == Completing {
          assert body[i] in body;
          return true;
        }
      }
      return false;
    }

    /** One sub-task at a time: a slot is taken and the first queued sub-task handed over. */
    method Pick(body: seq<SubTask>, w: World)
      modifies this
      ensures State() == Dispatch(old(State()), body, w)
    {
      var busy := UnderWay(body);
      if busy { return; }
      var s := FirstQueuing(body);
      if s.None? { return; }
      if maxTasks != 0 && count == maxTasks { return; }
      count := count + 1;
      HandOver(s.value, w);
    }

    method ScheduleWaiting(w: World)
      modifies this
      ensures State() == ScheduleNext(old(State()), w)
    {
      var t := FirstQueuingTask(tasks);
      if t.Some? { Schedule(t.value.id, w); }
    }

    /** The sub-tasks are queued and inserted one by one. */
    method StoreSubs(body: seq<SubTask>)
      modifies this`subs
      ensures subs == InsertSubs(old(subs), Queued(body))
    {
      var queued := Queued(body);
      var i := 0;
      assert queued[..0] == [];
      while i < |queued|
        invariant 0 <= i <= |queued|
        invariant subs == InsertSubs(old(subs), queued[..i])
      {
        assert queued[..i + 1][..i] == queued[..i];
        InsertSub(queued[i]);
        i := i + 1;
      }
      assert queued[..i] == queued;
    }

    method InsertTask(t: Task)
      modifies this`tasks
      ensures tasks == Insert(old(tasks), TaskId, t)
    {
      var n := FindIndex(tasks, TaskId, t.id);
      if n.Some? { tasks := RemoveAt(tasks, n.value); }
      tasks := tasks + [t];
    }

    /** The sub-tasks, their files, then the task itself. */
    method Store(id: Uuid, body: seq<SubTask>, specs: map<Uuid, FileSpec>)
      modifies this
      ensures State() == Stored(old(State()), id, body, specs)
    {
      StoreSubs(body);
      files := files + NewFiles(specs);
      InsertTask(Task(id, Queuing));
      past := past.(submitted := past.submitted[id := Keys(body, SubId)]);
    }

    method SubmitTask(id: Uuid, body: seq<SubTask>, specs: map<Uuid, FileSpec>, w: World)
      modifies this
      ensures State() == EnqueueTask(old(State()), id, body, specs, w)
    {
      Store(id, body, specs);
      Schedule(id, w);
    }

    method OnSubTaskCompleted(id: Uuid, w: World)
      modifies this
      ensures State() == CompleteSubTask(old(State()), id, w)
    {
      var s := Find(subs, SubId, id);
      CompleteSubTaskIs(State(), id, w);
      if s.None? { return; }
      FreeSlot(s.value);
      assert State() == Freed(old(State()), s.value);
      GoOn(s.value.parent, w);
    }

    method FreeSlot(s: SubTask)
      modifies this`subs, this`count
      ensures State() == Freed(old(State()), s)
    {
      UpdateSub(s.(status := Completed));
      count := count - 1;
    }

    /** The task of a completed sub-task is ended, or its next sub-task picked. */
    method GoOn(id: Uuid, w: World)
      modifies this
      ensures State() == Proceed(old(State()), id, w)
    {
      var t := Find(tasks, TaskId, id);
      if t.None? { return; }
      var body := Body(subs, id);
      if forall s | s in body :: s.status == Completed {
        UpdateTask(t.value.(status := Completed));
        ScheduleWaiting(w);
      } else {
        Schedule(id, w);
      }
    }

    method OnSubTaskFailed(id: Uuid, w: World)
      modifies this
      ensures State() == FailSubTask(old(State()), id, w)
    {
      FailSubTaskIs(State(), id, w);
      count := count - 1;
      var s := Find(subs, SubId, id);
      if s.None? { return; }
      var t := Find(tasks, TaskId, s.value.parent);
      if t.None? { return; }
      UpdateTask(t.value.(status := Status.Failed));
      ScheduleWaiting(w);
    }

    /** The consumer of the report queue takes a report and tells the scheduler. */
    method Consume(i: nat, w: World)
      requires i < |reports|
      modifies this
      ensures old(reports)[i].completed ==> State() == CompleteSubTask(Taken(old(State()), i), old(reports)[i].sub, w)
      ensures !old(reports)[i].completed ==> State() == FailSubTask(Taken(old(State()), i), old(reports)[i].sub, w)
    {
      var r := reports[i];
      reports := RemoveAt(reports, i);
      past := past.(consumed := past.consumed + {r.sub}, taken := past.taken + [r.sub]);
      if r.completed {
        OnSubTaskCompleted(r.sub, w);
      } else {
        OnSubTaskFailed(r.sub, w);
      }
    }

    // -------------------------------------------------------------- one call after the other

    method TakeDownload(f: Uuid)
      modifies this`downloads
      ensures State() == old(State()).(downloads := old(downloads) - {f})
    {
      downloads := downloads - {f};
    }

    method TakeUpload(f: Uuid)
      modifies this`uploads
      ensures State() == old(State()).(uploads := old(uploads) - {f})
    {
      uploads := uploads - {f};
    }

    /** A copy through the proxy that fails is reported, and the job started all the same. */
    method OnCopyFailed(f: Uuid, launch: Launch)
      requires f in files
      modifies this
      ensures State() == RunJob(FailJob(old(State()), old(files)[f].sub), f, launch)
    {
      OnTransferFailed(files[f].sub);
      OnDownloaded(f, launch);
    }

    /** A download command that has ended one way or the other. */
    method ServeDownload(step: Step)
      requires step.DownloadDone? || step.DownloadFailed? || step.CopyFailed?
      requires Enabled(State(), step)
      modifies this
      ensures State() == Next(old(State()), step)
    {
      TakeDownload(step.file);
      if step.file !in files { return; }
      match step {
        case DownloadDone(f, launch) => OnDownloaded(f, launch);
        case DownloadFailed(f) => OnTransferFailed(files[f].sub);
        case CopyFailed(f, launch) => OnCopyFailed(f, launch);
      }
    }

    method ServeUpload(step: Step)
      requires step.UploadDone? || step.UploadFailed?
      requires Enabled(State(), step)
      modifies this
      ensures State() == Next(old(State()), step)
    {
      TakeUpload(step.file);
      if step.file !in files { return; }
      if step.UploadDone? { OnUploaded(step.file); } else { OnTransferFailed(files[step.file].sub); }
    }

    method ServeDeployment(id: Uuid, deployed: bool)
      requires id in deploys
      modifies this
      ensures State() == Next(old(State()), DeployEnded(id, deployed))
    {
      deploys := deploys - {id};
      OnDeployed(id, deployed);
    }

    method ServeAny(step: Step)
      requires Enabled(State(), step)
      modifies this
      ensures State() == Next(old(State()), step)
    {
      match step
      case Submit(id, body, specs, w) => SubmitTask(id, body, specs, w);
      case Tick(w) => ScheduleWaiting(w);
      case JobObserved(id, state) => Refresh(id, state);
      case DeployEnded(id, deployed) => ServeDeployment(id, deployed);
      case Consume(i, w) => Consume(i, w);
      case UploadDone(_) => ServeUpload(step);
      case UploadFailed(_) => ServeUpload(step);
      case DownloadDone(_, _) => ServeDownload(step);
      case DownloadFailed(_) => ServeDownload(step);
      case CopyFailed(_, _) => ServeDownload(step);
    }

    /** Any call a valid host may be given leaves it valid: staging safety, slots and order hold for the
        object after every history of calls. */
    method Serve(step: Step)
      requires Valid() && Enabled(State(), step)
      modifies this
      ensures Valid() && State() == Next(old(State()), step)
    {
      AgentOrder.StepSound(State(), step, Next(State(), step));
      ServeAny(step);
    }
  }
}
