/** The agent: a repository of tasks, sub-tasks and files, a slot counter, and the channels its
    services use. Each service call is a function of the whole state. */
module AgentModel {
  import opened Basics

  type Uuid = nat

  datatype Status = Queuing | Running | Suspended | Completing | Completed | Failed | Reported | Unknown

  datatype Kind = Deployment | Usecase | Collection | Unsupported

  datatype Task = Task(id: Uuid, status: Status)

  /** `job` is the id of the submitted job, if any. */
  datatype SubTask = SubTask(id: Uuid, parent: Uuid, kind: Kind, status: Status, job: Option<Uuid>)

  datatype Direction = IN | OUT

  datatype FileStatus = RemoteOnly | LocalOnly | Both | Downloading | Uploading | WaitingCreate | NotExist | UnknownFile

  datatype File = File(sub: Uuid, direction: Direction, status: FileStatus)

  datatype Report = Report(sub: Uuid, completed: bool)

  /** What has happened so far: the reports ever sent, the sub-tasks whose job was seen completed, the
      sub-tasks whose report was consumed, those sub-tasks once for every report consumed, and the
      sub-task ids each task was submitted with. */
  datatype History = History(sent: seq<Report>, finished: set<Uuid>, consumed: set<Uuid>, taken: seq<Uuid>,
                             submitted: map<Uuid, seq<Uuid>>)

  /** The state the services share. `downloads`, `uploads` and `deploys` are the commands in flight,
      `reports` the sub-task reports not yet consumed, `jobs` the sub-tasks whose job was submitted.
      The services never read the history. */
  datatype Agent = Agent(tasks: seq<Task>, subs: seq<SubTask>, files: map<Uuid, File>,
                         maxTasks: nat, count: int, reports: seq<Report>,
                         downloads: set<Uuid>, uploads: set<Uuid>, deploys: set<Uuid>, jobs: seq<Uuid>, past: History)

  function TaskId(t: Task): Uuid { t.id }
  function SubId(s: SubTask): Uuid { s.id }

  // ---------------------------------------------------------------- the repository

  function RemoveAt<T>(s: seq<T>, i: nat): seq<T>
    requires i < |s|
  {
    s[..i] + s[i + 1..]
  }

  /** `update`: the record of that key is removed and the new one pushed to the back. */
  function MoveBack<T>(s: seq<T>, key: T -> Uuid, x: T): seq<T> {
    var i := FindIndex(s, key, key(x));
    if i.None? then s else RemoveAt(s, i.value) + [x]
  }

  /** `insert`: as `update`, but pushes also when there was none. */
  function Insert<T>(s: seq<T>, key: T -> Uuid, x: T): seq<T> {
    var i := FindIndex(s, key, key(x));
    (if i.None? then s else RemoveAt(s, i.value)) + [x]
  }

  function SetTask(a: Agent, t: Task): Agent { a.(tasks := MoveBack(a.tasks, TaskId, t)) }

  function SetSub(a: Agent, s: SubTask): Agent { a.(subs := MoveBack(a.subs, SubId, s)) }

  /** The body a task is read with: its sub-tasks in repository order. */
  function Body(subs: seq<SubTask>, task: Uuid): (body: seq<SubTask>)
    ensures forall s :: s in body <==> s in subs && s.parent == task
  {
    if subs == [] then []
    else (if subs[0].parent == task then [subs[0]] else []) + Body(subs[1..], task)
  }

  function FilesOf(files: map<Uuid, File>, sub: Uuid, direction: Direction): set<Uuid> {
    set f | f in files && files[f].sub == sub && files[f].direction == direction
  }

  predicate AllBoth(files: map<Uuid, File>, sub: Uuid, direction: Direction) {
    forall f :: f in FilesOf(files, sub, direction) ==> files[f].status == Both
  }

  function MarkAll(files: map<Uuid, File>, which: set<Uuid>, status: FileStatus): map<Uuid, File> {
    map f | f in files :: if f in which then files[f].(status := status) else files[f]
  }

  function Send(a: Agent, sub: Uuid, completed: bool): Agent {
    a.(reports := a.reports + [Report(sub, completed)], past := a.past.(sent := a.past.sent + [Report(sub, completed)]))
  }

  // ---------------------------------------------------------------- running a job

  /** What the attempt to start a job meets: the software and the job scheduler are outside. */
  datatype Launch = Submitted(job: Uuid) | SoftwareMissing | SubmitError

  /** `internal_run_job` */
  function RunIfReady(a: Agent, id: Uuid, launch: Launch): Agent {
    var s := Find(a.subs, SubId, id);
    if !AllBoth(a.files, id, IN) || s.None? then a
    else
      match launch
      case SubmitError => a
      case SoftwareMissing => Send(SetSub(a, s.value.(status := Status.Failed)), id, false)
      case Submitted(job) => SetSub(a, s.value.(job := Some(job))).(jobs := a.jobs + [id])
  }

  /** `internal_complete_job` */
  function CompleteIfReady(a: Agent, id: Uuid): Agent {
    if AllBoth(a.files, id, OUT) then Send(a, id, true) else a
  }

  /** `enqueue_sub_task` of the job service */
  function EnqueueJob(a: Agent, s: SubTask, launch: Launch): Agent {
    var ins := FilesOf(a.files, s.id, IN);
    var running := SetSub(a, s.(status := Running));
    if ins == {} then RunIfReady(running, s.id, launch)
    else running.(files := MarkAll(a.files, ins, Downloading), downloads := a.downloads + ins)
  }

  /** `run_job`: a download is done */
  function RunJob(a: Agent, f: Uuid, launch: Launch): Agent
    requires f in a.files
  {
    var marked := a.(files := a.files[f := a.files[f].(status := Both)]);
    RunIfReady(marked, a.files[f].sub, launch)
  }

  /** `complete_job`: an upload is done */
  function CompleteJob(a: Agent, f: Uuid): Agent
    requires f in a.files
  {
    CompleteIfReady(a.(files := a.files[f := a.files[f].(status := Both)]), a.files[f].sub)
  }

  /** `fail_job` */
  function FailJob(a: Agent, id: Uuid): Agent {
    var s := Find(a.subs, SubId, id);
    if s.None? then a else Send(SetSub(a, s.value.(status := Status.Failed)), id, false)
  }

  datatype JobState = JobQueuing | JobRunning | JobSuspended | JobCompleting | JobCompleted | JobFailed | JobUnknown

  /** `refresh_status` */
  function RefreshStatus(a: Agent, id: Uuid, state: JobState): Agent {
    var s := Find(a.subs, SubId, id);
    if s.None? then a
    else
      match state
      case JobFailed => Send(SetSub(a, s.value.(status := Status.Failed)), id, false)
      case JobUnknown => Send(SetSub(a, s.value.(status := Status.Failed)), id, false)
      case JobCompleted => Delivered(Complete(a, s.value), id)
      case _ => a
  }

  /** The job of the sub-task was seen completed. */
  function Complete(a: Agent, s: SubTask): Agent {
    SetSub(a, s.(status := Completing)).(past := a.past.(finished := a.past.finished + {s.id}))
  }

  /** Its outputs are sent, or its report when there are none. */
  function Delivered(a: Agent, id: Uuid): Agent {
    var outs := FilesOf(a.files, id, OUT);
    if outs == {} then CompleteIfReady(a, id)
    else a.(files := MarkAll(a.files, outs, Uploading), uploads := a.uploads + outs)
  }

  // ---------------------------------------------------------------- the other two kinds

  /** `enqueue_sub_task` of the collection service, which finishes at once */
  function EnqueueCollection(a: Agent, s: SubTask, collected: bool): Agent {
    Send(SetSub(a, s.(status := if collected then Completed else Status.Failed)), s.id, collected)
  }

  /** `enqueue_sub_task` of the deployment service */
  function EnqueueDeployment(a: Agent, s: SubTask): Agent {
    SetSub(a, s.(status := Running)).(deploys := a.deploys + {s.id})
  }

  /** `complete_sub_task` and `fail_sub_task` of the deployment service */
  function EndDeployment(a: Agent, id: Uuid, deployed: bool): Agent {
    var s := Find(a.subs, SubId, id);
    if s.None? then a
    else Send(SetSub(a, s.value.(status := if deployed then Completed else Status.Failed)), id, deployed)
  }

  // ---------------------------------------------------------------- the scheduler

  /** What the next dispatch meets outside the agent. */
  datatype World = World(launch: Launch, collected: bool)

  function Enqueue(a: Agent, s: SubTask, w: World): Agent {
    match s.kind
    case Usecase => EnqueueJob(a, s, w.launch)
    case Collection => EnqueueCollection(a, s, w.collected)
    case Deployment => EnqueueDeployment(a, s)
    case Unsupported => a
  }

  function FirstQueuing(body: seq<SubTask>): (s: Option<SubTask>)
    ensures s.Some? ==> s.value in body && s.value.status == Queuing
    ensures s.None? ==> forall x :: x in body ==> x.status != Queuing
  {
    if body == [] then None else if body[0].status == Queuing then Some(body[0]) else FirstQueuing(body[1..])
  }

  predicate Busy(body: seq<SubTask>) {
    exists s :: s in body && (s.status == Running || s.status == Completing)
  }

  /** The second half of `schedule_next_task_by_id`: pick a sub-task, take a slot, hand it over. */
  function Dispatch(a: Agent, body: seq<SubTask>, w: World): Agent {
    if Held(a, body) then a else Enqueue(a.(count := a.count + 1), FirstQueuing(body).value, w)
  }

  /** Nothing is picked: a sub-task is under way, none is queued, or every slot is taken. */
  predicate Held(a: Agent, body: seq<SubTask>) {
    Busy(body) || FirstQueuing(body).None? || (a.maxTasks != 0 && a.count == a.maxTasks)
  }

  /** `schedule_next_task_by_id` */
  function ScheduleById(a: Agent, id: Uuid, w: World): Agent {
    var t := Find(a.tasks, TaskId, id);
    if t.None? || (t.value.status != Queuing && t.value.status != Running) then a
    else
      var started := if t.value.status == Queuing then SetTask(a, Task(id, Running)) else a;
      Dispatch(started, Body(a.subs, id), w)
  }

  function FirstQueuingTask(tasks: seq<Task>): (t: Option<Task>)
    ensures t.Some? ==> t.value in tasks && t.value.status == Queuing
  {
    if tasks == [] then None else if tasks[0].status == Queuing then Some(tasks[0]) else FirstQueuingTask(tasks[1..])
  }

  /** `schedule_next_task` */
  function ScheduleNext(a: Agent, w: World): Agent {
    var t := FirstQueuingTask(a.tasks);
    if t.None? then a else ScheduleById(a, t.value.id, w)
  }

  function InsertSubs(subs: seq<SubTask>, news: seq<SubTask>): seq<SubTask> {
    if news == [] then subs else Insert(InsertSubs(subs, news[..|news| - 1]), SubId, news[|news| - 1])
  }

  /** A file named in a submission: the sub-task it belongs to and its direction. */
  datatype FileSpec = FileSpec(sub: Uuid, direction: Direction)

  /** `insert` for the files of a sub-task sets their first status. */
  function NewFiles(specs: map<Uuid, FileSpec>): map<Uuid, File> {
    map f | f in specs ::
      File(specs[f].sub, specs[f].direction, if specs[f].direction == IN then RemoteOnly else WaitingCreate)
  }

  /** `enqueue_task`: everything is queued, stored with its files, and scheduled. */
  function EnqueueTask(a: Agent, id: Uuid, body: seq<SubTask>, files: map<Uuid, FileSpec>, w: World): Agent {
    ScheduleById(Stored(a, id, body, files), id, w)
  }

  function Stored(a: Agent, id: Uuid, body: seq<SubTask>, files: map<Uuid, FileSpec>): Agent {
    a.(tasks := Insert(a.tasks, TaskId, Task(id, Queuing)),
       subs := InsertSubs(a.subs, Queued(body)),
       files := a.files + NewFiles(files),
       past := a.past.(submitted := a.past.submitted[id := Keys(body, SubId)]))
  }

  function Queued(body: seq<SubTask>): (q: seq<SubTask>)
    ensures |q| == |body|
    ensures forall i :: 0 <= i < |body| ==> q[i] == body[i].(status := Queuing)
  {
    seq(|body|, i requires 0 <= i < |body| => body[i].(status := Queuing))
  }

  /** `complete_sub_task`, once the slot is free: the task is done, or its next sub-task is due. */
  function Proceed(a: Agent, task: Uuid, w: World): Agent {
    var t := Find(a.tasks, TaskId, task);
    if t.None? then a
    else if forall x :: x in Body(a.subs, task) ==> x.status == Completed then
      ScheduleNext(SetTask(a, t.value.(status := Completed)), w)
    else ScheduleById(a, task, w)
  }

  /** The sub-task written back as completed, and its slot freed. */
  function Freed(a: Agent, s: SubTask): Agent {
    SetSub(a, s.(status := Completed)).(count := a.count - 1)
  }

  /** `complete_sub_task` */
  function CompleteSubTask(a: Agent, id: Uuid, w: World): Agent {
    var s := Find(a.subs, SubId, id);
    if s.None? then a
    else Proceed(Freed(a, s.value), s.value.parent, w)
  }

  lemma CompleteSubTaskIs(a: Agent, id: Uuid, w: World)
    ensures var s := Find(a.subs, SubId, id);
            CompleteSubTask(a, id, w) ==
            if s.None? then a
            else Proceed(Freed(a, s.value), s.value.parent, w)
  {
  }

  /** `fail_sub_task` */
  function FailSubTask(a: Agent, id: Uuid, w: World): Agent {
    var freed := a.(count := a.count - 1);
    var s := Find(a.subs, SubId, id);
    if s.None? then freed
    else
      var t := Find(a.tasks, TaskId, s.value.parent);
      if t.None? then freed else ScheduleNext(SetTask(freed, t.value.(status := Status.Failed)), w)
  }

  lemma FailSubTaskIs(a: Agent, id: Uuid, w: World)
    ensures var s := Find(a.subs, SubId, id);
            var t := if s.None? then None else Find(a.tasks, TaskId, s.value.parent);
            FailSubTask(a, id, w) ==
            if t.None? then a.(count := a.count - 1)
            else ScheduleNext(SetTask(a.(count := a.count - 1), t.value.(status := Status.Failed)), w)
  {
  }

  // ---------------------------------------------------------------- steps

  /** The report taken off the queue. */
  function Taken(a: Agent, i: nat): Agent
    requires i < |a.reports|
  {
    var sub := a.reports[i].sub;
    a.(reports := RemoveAt(a.reports, i),
       past := a.past.(consumed := a.past.consumed + {sub}, taken := a.past.taken + [sub]))
  }

  datatype Step = Submit(task: Uuid, body: seq<SubTask>, files: map<Uuid, FileSpec>, w: World)
                | Tick(w: World)
                | DownloadDone(file: Uuid, launch: Launch)
                | DownloadFailed(file: Uuid)
                | CopyFailed(file: Uuid, launch: Launch) // through the SSH proxy: reported, then run all the same
                | UploadDone(file: Uuid)
                | UploadFailed(file: Uuid)
                | JobObserved(sub: Uuid, state: JobState)
                | DeployEnded(sub: Uuid, deployed: bool)
                | Consume(nth: nat, w: World)

  /** A submission of new work: fresh ids, each sub-task of a supported kind and naming its task, each
      file named once and belonging to one of the use-case sub-tasks. */
  ghost predicate NewWork(a: Agent, id: Uuid, body: seq<SubTask>, files: map<Uuid, FileSpec>) {
    && Find(a.tasks, TaskId, id).None?
    && Distinct(Keys(body, SubId))
    && (forall s :: s in body ==> s.parent == id && s.kind != Unsupported && s.job.None?)
    && (forall s :: s in body ==> forall x :: x in a.subs ==> x.id != s.id)
    && files.Keys !! a.files.Keys
    && forall f :: f in files ==> exists s :: s in body && s.kind == Usecase && s.id == files[f].sub
  }

  ghost predicate Enabled(a: Agent, step: Step) {
    match step
    case Submit(id, body, files, _) => NewWork(a, id, body, files)
    case Tick(_) => true
    case DownloadDone(f, _) => f in a.downloads
    case DownloadFailed(f) => f in a.downloads
    case CopyFailed(f, _) => f in a.downloads
    case UploadDone(f) => f in a.uploads
    case UploadFailed(f) => f in a.uploads
    case JobObserved(id, _) =>
      var s := Find(a.subs, SubId, id);
      s.Some? && s.value.job.Some? && s.value.status == Running
    case DeployEnded(id, _) => id in a.deploys
    case Consume(i, _) => i < |a.reports|
  }

  /** A report is taken off the queue and served. */
  function ConsumeReport(a: Agent, i: nat, w: World): Agent
    requires i < |a.reports|
  {
    if a.reports[i].completed then CompleteSubTask(Taken(a, i), a.reports[i].sub, w)
    else FailSubTask(Taken(a, i), a.reports[i].sub, w)
  }

  /** One service call. */
  ghost function Next(a: Agent, step: Step): Agent
    requires Enabled(a, step)
  {
    match step
    case Submit(id, body, files, w) => EnqueueTask(a, id, body, files, w)
    case Tick(w) => ScheduleNext(a, w)
    case DownloadDone(f, launch) =>
      var b := a.(downloads := a.downloads - {f});
      if f in a.files then RunJob(b, f, launch) else b
    case DownloadFailed(f) =>
      var b := a.(downloads := a.downloads - {f});
      if f in a.files then FailJob(b, a.files[f].sub) else b
    case CopyFailed(f, launch) =>
      var b := a.(downloads := a.downloads - {f});
      if f in a.files then RunJob(FailJob(b, a.files[f].sub), f, launch) else b
    case UploadDone(f) =>
      var b := a.(uploads := a.uploads - {f});
      if f in a.files then CompleteJob(b, f) else b
    case UploadFailed(f) =>
      var b := a.(uploads := a.uploads - {f});
      if f in a.files then FailJob(b, a.files[f].sub) else b
    case JobObserved(id, state) => RefreshStatus(a, id, state)
    case DeployEnded(id, deployed) => EndDeployment(a.(deploys := a.deploys - {id}), id, deployed)
    case Consume(i, w) => ConsumeReport(a, i, w)
  }
}
