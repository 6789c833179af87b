/** Staging safety: what every run of the agent keeps about each sub-task, its files, its job and its
    reports. */
module AgentStaging {
  import opened Basics
  import opened AgentModel
  import opened Histories

  // ---------------------------------------------------------------- the repository order

  lemma {:induction false} FindConcat<T>(a: seq<T>, b: seq<T>, key: T -> Uuid, k: Uuid)
    ensures Find(a + b, key, k) == if Find(a, key, k).Some? then Find(a, key, k) else Find(b, key, k)
  {
    if a == [] {
      assert a + b == b;
    } else {
      assert (a + b)[1..] == a[1..] + b;
      if key(a[0]) != k { FindConcat(a[1..], b, key, k); }
    }
  }

  lemma FoundOnce<T>(s: seq<T>, key: T -> Uuid, i: nat)
    requires Distinct(Keys(s, key)) && i < |s|
    ensures Find(s[..i], key, key(s[i])).None? && Find(s[i + 1..], key, key(s[i])).None?
  {
    forall j | 0 <= j < |s| && j != i ensures key(s[j]) != key(s[i]) { DistinctAny(Keys(s, key), j, i); }
  }

  /** Moving a record to the back keeps keys distinct and changes what is found under its own key only. */
  lemma MoveBackFinds<T>(s: seq<T>, key: T -> Uuid, x: T, k: Uuid)
    requires Distinct(Keys(s, key))
    ensures Find(MoveBack(s, key, x), key, k) ==
            if k == key(x) && Find(s, key, k).Some? then Some(x) else Find(s, key, k)
  {
    var i := FindIndex(s, key, key(x));
    if i.Some? {
      var front, back := s[..i.value], s[i.value + 1..];
      assert s == front + [s[i.value]] + back;
      FindConcat(front + [s[i.value]], back, key, k);
      FindConcat(front, [s[i.value]], key, k);
      FindConcat(front + back, [x], key, k);
      FindConcat(front, back, key, k);
      if k == key(x) { FoundOnce(s, key, i.value); }
    }
  }

  lemma MoveBackDistinct<T>(s: seq<T>, key: T -> Uuid, x: T)
    requires Distinct(Keys(s, key))
    ensures Distinct(Keys(MoveBack(s, key, x), key))
  {
    var i := FindIndex(s, key, key(x));
    if i.Some? {
      var ks := Keys(s, key);
      var moved := MoveBack(s, key, x);
      forall a, b | 0 <= a < b < |moved| ensures key(moved[a]) != key(moved[b]) {
        var a0 := if a < i.value then a else a + 1;
        var b0 := if b == |moved| - 1 then i.value else if b < i.value then b else b + 1;
        DistinctAny(ks, a0, b0);
      }
    }
  }

  // ---------------------------------------------------------------- one sub-task

  function Occurrences(jobs: seq<Uuid>, id: Uuid): nat {
    if jobs == [] then 0 else Occurrences(jobs[..|jobs| - 1], id) + if jobs[|jobs| - 1] == id then 1 else 0
  }

  function SentFor(sent: seq<Report>, id: Uuid, completed: bool): nat {
    if sent == [] then 0
    else SentFor(sent[..|sent| - 1], id, completed) + if sent[|sent| - 1] == Report(id, completed) then 1 else 0
  }

  /** Everything the state says about one sub-task. */
  datatype View = View(sub: Option<SubTask>, files: map<Uuid, File>, down: set<Uuid>, up: set<Uuid>,
                       deploying: bool, jobs: nat, done: nat, failed: nat, finished: bool)

  function OwnFiles(files: map<Uuid, File>, id: Uuid): map<Uuid, File> {
    map f | f in files && files[f].sub == id :: files[f]
  }

  function ViewOf(a: Agent, id: Uuid): View {
    var files := OwnFiles(a.files, id);
    View(Find(a.subs, SubId, id), files, a.downloads * files.Keys, a.uploads * files.Keys, id in a.deploys,
         Occurrences(a.jobs, id), SentFor(a.past.sent, id, true), SentFor(a.past.sent, id, false),
         id in a.past.finished)
  }

  ghost predicate Staged(files: map<Uuid, File>, direction: Direction) {
    forall f :: f in files && files[f].direction == direction ==> files[f].status == Both
  }

  /** An output that will never arrive: its transfer has ended without it. */
  ghost predicate LostOutput(v: View) {
    exists f :: f in v.files && v.files[f].direction == OUT && v.files[f].status != Both && f !in v.up
  }

  ghost predicate Untouched(v: View) {
    v.down == {} && v.up == {} && !v.deploying && v.jobs == 0 && v.done == 0 && v.failed == 0 && !v.finished
  }

  /** What holds of every sub-task in every run. */
  ghost predicate Safe(v: View) {
    if v.sub.None? then v.files == map[] && Untouched(v)
    else
      var s := v.sub.value;
      && s.kind != Unsupported
      && (forall f :: f in v.down ==> f in v.files && v.files[f].direction == IN && v.files[f].status == Downloading)
      && (forall f :: f in v.up ==> f in v.files && v.files[f].direction == OUT && v.files[f].status == Uploading)
      && v.jobs <= 1 && (s.job.Some? <==> v.jobs == 1)
      && (v.jobs == 1 ==> Staged(v.files, IN))
      && (v.finished ==> v.jobs == 1 && s.status in {Completing, Completed, Status.Failed})
      && v.done <= 1 && (v.done > 0 ==> v.failed == 0)
      && (s.status == Queuing ==> Untouched(v))
      && (s.status == Running ==> v.done == 0 && v.failed == 0)
      && (v.failed > 0 ==> s.status == Status.Failed)
      && (s.kind == Usecase ==> SafeJob(v))
      && (s.kind != Usecase ==> v.files == map[] && v.jobs == 0 && v.done + v.failed <= 1)
      && (v.deploying ==> s.kind == Deployment && s.status == Running)
  }

  ghost predicate SafeJob(v: View)
    requires v.sub.Some?
  {
    && (v.done > 0 ==> v.finished && Staged(v.files, OUT))
    && (v.up != {} ==> v.finished)
    && (v.failed > 0 ==> v.finished ==> LostOutput(v))
  }

  // ---------------------------------------------------------------- the pieces of a step

  ghost predicate WellStored(a: Agent) {
    && Distinct(Keys(a.subs, SubId))
    && a.downloads <= a.files.Keys && a.uploads <= a.files.Keys
    && forall r :: r in a.reports ==> SentFor(a.past.sent, r.sub, r.completed) > 0
  }

  lemma SetSubView(a: Agent, s: SubTask, id: Uuid)
    requires Distinct(Keys(a.subs, SubId))
    ensures ViewOf(SetSub(a, s), id) ==
            ViewOf(a, id).(sub := if id == s.id && ViewOf(a, id).sub.Some? then Some(s) else ViewOf(a, id).sub)
    ensures Distinct(Keys(SetSub(a, s).subs, SubId))
  {
    MoveBackFinds(a.subs, SubId, s, id);
    MoveBackDistinct(a.subs, SubId, s);
  }

  lemma SendView(a: Agent, sub: Uuid, completed: bool, id: Uuid)
    ensures var v := ViewOf(a, id);
            ViewOf(Send(a, sub, completed), id) ==
            if id != sub then v else if completed then v.(done := v.done + 1) else v.(failed := v.failed + 1)
  {
    var sent := a.past.sent;
    assert (sent + [Report(sub, completed)])[..|sent|] == sent;
  }

  lemma JobView(a: Agent, sub: Uuid, id: Uuid)
    ensures ViewOf(a.(jobs := a.jobs + [sub]), id) ==
            if id == sub then ViewOf(a, id).(jobs := ViewOf(a, id).jobs + 1) else ViewOf(a, id)
  {
    assert (a.jobs + [sub])[..|a.jobs|] == a.jobs;
  }

  lemma FileView(a: Agent, f: Uuid, status: FileStatus, id: Uuid)
    requires f in a.files
    ensures var b := a.(files := a.files[f := a.files[f].(status := status)]);
            ViewOf(b, id) == if f in ViewOf(a, id).files
                             then ViewOf(a, id).(files := ViewOf(a, id).files[f := a.files[f].(status := status)])
                             else ViewOf(a, id)
  {
    var b := a.(files := a.files[f := a.files[f].(status := status)]);
    assert ViewOf(b, id).files ==
           if f in ViewOf(a, id).files then ViewOf(a, id).files[f := a.files[f].(status := status)]
           else ViewOf(a, id).files;
    assert ViewOf(b, id).files.Keys == ViewOf(a, id).files.Keys;
  }

  lemma SentGrows(sent: seq<Report>, r: Report, id: Uuid, completed: bool)
    ensures SentFor(sent + [r], id, completed) == SentFor(sent, id, completed) +
            if r == Report(id, completed) then 1 else 0
  {
    assert (sent + [r])[..|sent|] == sent;
  }

  lemma SendStored(a: Agent, sub: Uuid, completed: bool)
    requires WellStored(a)
    ensures WellStored(Send(a, sub, completed))
  {
    forall r | r in a.reports + [Report(sub, completed)]
      ensures SentFor(a.past.sent + [Report(sub, completed)], r.sub, r.completed) > 0
    {
      SentGrows(a.past.sent, Report(sub, completed), r.sub, r.completed);
    }
  }

  lemma SetSubStored(a: Agent, s: SubTask)
    requires WellStored(a)
    ensures WellStored(SetSub(a, s))
  {
    MoveBackDistinct(a.subs, SubId, s);
  }

  /** Every sub-task is safe, and the repository is in order. */
  ghost predicate AllSafe(a: Agent) {
    WellStored(a) && forall id :: Safe(ViewOf(a, id))
  }

  lemma FindHasId(subs: seq<SubTask>, id: Uuid)
    ensures Find(subs, SubId, id).Some? ==> Find(subs, SubId, id).value.id == id
  {
  }

  /** The view of a sub-task after some sub-task was given a final status and a report was sent. */
  lemma ReportedView(a: Agent, s: SubTask, status: Status, completed: bool, id: Uuid)
    requires Distinct(Keys(a.subs, SubId)) && Find(a.subs, SubId, s.id) == Some(s)
    ensures ViewOf(Send(SetSub(a, s.(status := status)), s.id, completed), id) ==
            if id == s.id then Ended(ViewOf(a, id), status, completed) else ViewOf(a, id)
  {
    SetSubView(a, s.(status := status), id);
    SendView(SetSub(a, s.(status := status)), s.id, completed, id);
  }

  function Ended(v: View, status: Status, completed: bool): View
    requires v.sub.Some?
  {
    var w := v.(sub := Some(v.sub.value.(status := status)));
    if completed then w.(done := v.done + 1) else w.(failed := v.failed + 1)
  }

  lemma ReportedSafe(a: Agent, s: SubTask, status: Status, completed: bool)
    requires AllSafe(a) && Find(a.subs, SubId, s.id) == Some(s)
    requires Safe(Ended(ViewOf(a, s.id), status, completed))
    ensures AllSafe(Send(SetSub(a, s.(status := status)), s.id, completed))
  {
    SetSubStored(a, s.(status := status));
    SendStored(SetSub(a, s.(status := status)), s.id, completed);
    forall id ensures Safe(ViewOf(Send(SetSub(a, s.(status := status)), s.id, completed), id)) {
      assert Safe(ViewOf(a, id));
      ReportedView(a, s, status, completed, id);
    }
  }

  /** What a sub-task that is about to fail must look like. */
  ghost predicate MayFail(v: View) {
    && v.sub.Some? && v.done == 0 && v.sub.value.status != Queuing
    && (v.sub.value.kind == Usecase ==> v.finished ==> LostOutput(v))
    && (v.sub.value.kind != Usecase ==> v.failed == 0 && !v.deploying)
  }

  lemma FailedOwn(v: View)
    requires Safe(v) && MayFail(v)
    ensures Safe(Ended(v, Status.Failed, false))
  {
    var w := Ended(v, Status.Failed, false);
    if LostOutput(v) {
      var f :| f in v.files && v.files[f].direction == OUT && v.files[f].status != Both && f !in v.up;
      assert f in w.files && f !in w.up;
    }
  }

  lemma FailSafe(a: Agent, id: Uuid)
    requires AllSafe(a) && MayFail(ViewOf(a, id))
    ensures AllSafe(FailJob(a, id))
  {
    FailedOwn(ViewOf(a, id));
    ReportedSafe(a, Find(a.subs, SubId, id).value, Status.Failed, false);
  }

  lemma AllBothIsStaged(a: Agent, id: Uuid, direction: Direction)
    ensures AllBoth(a.files, id, direction) <==> Staged(ViewOf(a, id).files, direction)
  {
    var files := ViewOf(a, id).files;
    assert forall f :: f in files && files[f].direction == direction <==> f in FilesOf(a.files, id, direction);
    assert forall f :: f in files ==> files[f] == a.files[f];
  }

  /** `internal_run_job`, called when no job of the sub-task has been submitted yet. */
  lemma RunIfReadySafe(a: Agent, id: Uuid, launch: Launch)
    requires AllSafe(a) && Find(a.subs, SubId, id).Some?
    requires var v := ViewOf(a, id);
             v.jobs == 0 && v.sub.value.kind == Usecase && v.sub.value.status != Queuing
    ensures AllSafe(RunIfReady(a, id, launch))
  {
    AllBothIsStaged(a, id, IN);
    assert Safe(ViewOf(a, id));
    if AllBoth(a.files, id, IN) && launch == SoftwareMissing {
      FailSafe(a, id);
    }
    if AllBoth(a.files, id, IN) && launch.Submitted? {
      SubmitSafe(a, id, launch.job);
    }
  }

  lemma SubmitSafe(a: Agent, id: Uuid, job: Uuid)
    requires AllSafe(a) && Find(a.subs, SubId, id).Some?
    requires var v := ViewOf(a, id);
             v.jobs == 0 && v.sub.value.kind == Usecase && v.sub.value.status != Queuing && Staged(v.files, IN)
    ensures AllSafe(SetSub(a, Find(a.subs, SubId, id).value.(job := Some(job))).(jobs := a.jobs + [id]))
  {
    var s := Find(a.subs, SubId, id).value.(job := Some(job));
    var mid := SetSub(a, s);
    SetSubStored(a, s);
    forall other ensures Safe(ViewOf(mid.(jobs := mid.jobs + [id]), other)) {
      assert Safe(ViewOf(a, other));
      SetSubView(a, s, other);
      JobView(mid, id, other);
    }
  }

  // ---------------------------------------------------------------- dispatching

  /** A status the sub-task may take without a report. */
  lemma StatusSafe(a: Agent, s: SubTask, status: Status)
    requires AllSafe(a) && Find(a.subs, SubId, s.id) == Some(s)
    requires Safe(ViewOf(a, s.id).(sub := Some(s.(status := status))))
    ensures AllSafe(SetSub(a, s.(status := status)))
  {
    SetSubStored(a, s.(status := status));
    forall other ensures Safe(ViewOf(SetSub(a, s.(status := status)), other)) {
      assert Safe(ViewOf(a, other));
      SetSubView(a, s.(status := status), other);
    }
  }

  lemma MarkOwn(files: map<Uuid, File>, sub: Uuid, direction: Direction, status: FileStatus, id: Uuid)
    ensures var which := FilesOf(files, sub, direction);
            var own := OwnFiles(files, id);
            && OwnFiles(MarkAll(files, which, status), id) == MarkAll(own, which, status)
            && MarkAll(own, which, status).Keys == own.Keys
            && (id != sub ==> MarkAll(own, which, status) == own)
            && (id == sub ==> which == FilesOf(own, id, direction))
  {
    var which := FilesOf(files, sub, direction);
    var own := OwnFiles(files, id);
    assert MarkAll(own, which, status).Keys == own.Keys;
    if id == sub {
      assert which == FilesOf(own, id, direction);
    } else {
      MarkElsewhere(files, sub, direction, status, id);
    }
  }

  lemma MarkElsewhere(files: map<Uuid, File>, sub: Uuid, direction: Direction, status: FileStatus, id: Uuid)
    requires id != sub
    ensures MarkAll(OwnFiles(files, id), FilesOf(files, sub, direction), status) == OwnFiles(files, id)
  {
  }

  lemma MarkView(a: Agent, sub: Uuid, direction: Direction, status: FileStatus, id: Uuid)
    ensures var which := FilesOf(a.files, sub, direction);
            var v := ViewOf(a, id);
            && ViewOf(a.(files := MarkAll(a.files, which, status)), id) == v.(files := MarkAll(v.files, which, status))
            && (id != sub ==> MarkAll(v.files, which, status) == v.files)
            && (id == sub ==> which == FilesOf(v.files, id, direction))
  {
    MarkOwn(a.files, sub, direction, status, id);
  }

  /** The view of a sub-task whose input files have just been sent for. */
  lemma FetchView(a: Agent, sub: Uuid, id: Uuid)
    ensures var ins := FilesOf(a.files, sub, IN);
            var v := ViewOf(a, id);
            var b := a.(files := MarkAll(a.files, ins, Downloading), downloads := a.downloads + ins);
            ViewOf(b, id) ==
            if id == sub then v.(files := MarkAll(v.files, ins, Downloading), down := v.down + ins) else v
  {
    var ins := FilesOf(a.files, sub, IN);
    MarkView(a, sub, IN, Downloading, id);
    var v := ViewOf(a, id);
    assert (a.downloads + ins) * v.files.Keys == if id == sub then v.down + ins else v.down;
  }

  lemma EnqueueJobSafe(a: Agent, s: SubTask, launch: Launch)
    requires AllSafe(a) && Find(a.subs, SubId, s.id) == Some(s) && s.status == Queuing && s.kind == Usecase
    ensures AllSafe(EnqueueJob(a, s, launch))
  {
    var running := SetSub(a, s.(status := Running));
    assert Safe(ViewOf(a, s.id));
    StatusSafe(a, s, Running);
    SetSubView(a, s.(status := Running), s.id);
    var ins := FilesOf(a.files, s.id, IN);
    if ins == {} {
      RunIfReadySafe(running, s.id, launch);
    } else {
      FetchSafe(running, s.id);
    }
  }

  lemma FetchSafe(a: Agent, id: Uuid)
    requires AllSafe(a)
    requires var v := ViewOf(a, id);
             v.sub.Some? && v.sub.value.status == Running && v.sub.value.kind == Usecase && v.jobs == 0
    ensures var ins := FilesOf(a.files, id, IN);
            AllSafe(a.(files := MarkAll(a.files, ins, Downloading), downloads := a.downloads + ins))
  {
    var ins := FilesOf(a.files, id, IN);
    var b := a.(files := MarkAll(a.files, ins, Downloading), downloads := a.downloads + ins);
    forall other ensures Safe(ViewOf(b, other)) {
      assert Safe(ViewOf(a, other));
      FetchView(a, id, other);
      MarkView(a, id, IN, Downloading, other);
    }
  }

  lemma EnqueueCollectionSafe(a: Agent, s: SubTask, collected: bool)
    requires AllSafe(a) && Find(a.subs, SubId, s.id) == Some(s) && s.status == Queuing && s.kind == Collection
    ensures AllSafe(EnqueueCollection(a, s, collected))
  {
    assert Safe(ViewOf(a, s.id));
    ReportedSafe(a, s, if collected then Completed else Status.Failed, collected);
  }

  lemma EnqueueDeploymentSafe(a: Agent, s: SubTask)
    requires AllSafe(a) && Find(a.subs, SubId, s.id) == Some(s) && s.status == Queuing && s.kind == Deployment
    ensures AllSafe(EnqueueDeployment(a, s))
  {
    SetSubStored(a, s.(status := Running));
    forall other ensures Safe(ViewOf(EnqueueDeployment(a, s), other)) {
      assert Safe(ViewOf(a, other));
      SetSubView(a, s.(status := Running), other);
      var mid := SetSub(a, s.(status := Running));
      assert ViewOf(EnqueueDeployment(a, s), other) ==
             ViewOf(mid, other).(deploying := ViewOf(mid, other).deploying || other == s.id);
    }
  }

  lemma MemberFound(subs: seq<SubTask>, s: SubTask)
    requires Distinct(Keys(subs, SubId)) && s in subs
    ensures Find(subs, SubId, s.id) == Some(s)
  {
    var i :| 0 <= i < |subs| && subs[i] == s;
    FindUnique(subs, SubId, i);
  }

  /** Fields that no view looks at. */
  lemma SameViews(a: Agent, b: Agent)
    requires a.subs == b.subs && a.files == b.files && a.downloads == b.downloads && a.uploads == b.uploads
    requires a.deploys == b.deploys && a.jobs == b.jobs && a.past.sent == b.past.sent
    requires a.past.finished == b.past.finished
    requires forall r :: r in b.reports ==> r in a.reports
    requires AllSafe(a)
    ensures AllSafe(b)
  {
    forall id ensures Safe(ViewOf(b, id)) { assert Safe(ViewOf(a, id)); assert ViewOf(a, id) == ViewOf(b, id); }
  }

  /** Handing a queued sub-task to the service of its kind. */
  lemma EnqueueSafe(a: Agent, s: SubTask, w: World)
    requires AllSafe(a) && Find(a.subs, SubId, s.id) == Some(s) && s.status == Queuing
    ensures AllSafe(Enqueue(a, s, w))
  {
    match s.kind
    case Usecase => EnqueueJobSafe(a, s, w.launch);
    case Collection => EnqueueCollectionSafe(a, s, w.collected);
    case Deployment => EnqueueDeploymentSafe(a, s);
    case Unsupported =>
  }

  /** A dispatch either changes nothing or takes a slot and hands over the first queued sub-task. */
  lemma DispatchIs(a: Agent, body: seq<SubTask>, w: World)
    ensures var s := FirstQueuing(body);
            || Dispatch(a, body, w) == a
            || (s.Some? && Dispatch(a, body, w) == Enqueue(a.(count := a.count + 1), s.value, w))
  {
  }

  lemma DispatchSafe(a: Agent, id: Uuid, w: World)
    requires AllSafe(a)
    ensures AllSafe(Dispatch(a, Body(a.subs, id), w))
  {
    var body := Body(a.subs, id);
    var s := FirstQueuing(body);
    DispatchIs(a, body, w);
    if s.Some? {
      MemberFound(a.subs, s.value);
      SameViews(a, a.(count := a.count + 1));
      EnqueueSafe(a.(count := a.count + 1), s.value, w);
    }
  }

  lemma ScheduleSafe(a: Agent, id: Uuid, w: World)
    requires AllSafe(a)
    ensures AllSafe(ScheduleById(a, id, w))
    ensures AllSafe(ScheduleNext(a, w))
  {
    ScheduleOneSafe(a, id, w);
    var t := FirstQueuingTask(a.tasks);
    if t.Some? { ScheduleOneSafe(a, t.value.id, w); }
  }

  lemma ScheduleOneSafe(a: Agent, id: Uuid, w: World)
    requires AllSafe(a)
    ensures AllSafe(ScheduleById(a, id, w))
  {
    var started := SetTask(a, Task(id, Running));
    SameViews(a, started);
    DispatchSafe(a, id, w);
    DispatchSafe(started, id, w);
  }

  // ---------------------------------------------------------------- the steps

  lemma DownloadOff(a: Agent, f: Uuid, id: Uuid)
    ensures ViewOf(a.(downloads := a.downloads - {f}), id) == ViewOf(a, id).(down := ViewOf(a, id).down - {f})
    ensures ViewOf(a.(uploads := a.uploads - {f}), id) == ViewOf(a, id).(up := ViewOf(a, id).up - {f})
  {
    var v := ViewOf(a, id);
    assert (a.downloads - {f}) * v.files.Keys == v.down - {f};
    assert (a.uploads - {f}) * v.files.Keys == v.up - {f};
  }

  /** A download that is over: the file was still on its way, so no job of its sub-task exists yet. */
  lemma DownloadOver(a: Agent, f: Uuid)
    requires AllSafe(a) && f in a.downloads
    ensures f in a.files && AllSafe(a.(downloads := a.downloads - {f}))
    ensures var v := ViewOf(a, a.files[f].sub);
            && v.sub.Some? && v.jobs == 0 && v.done == 0 && !v.finished && v.sub.value.kind == Usecase
               && v.sub.value.status != Queuing
            && f in v.files && v.files[f].direction == IN && f !in v.up
  {
    var id := a.files[f].sub;
    assert Safe(ViewOf(a, id)) && f in ViewOf(a, id).down;
    forall other ensures Safe(ViewOf(a.(downloads := a.downloads - {f}), other)) {
      assert Safe(ViewOf(a, other));
      DownloadOff(a, f, other);
    }
  }

  /** Marking an input as staged on both sides. */
  lemma MarkInputSafe(a: Agent, f: Uuid)
    requires AllSafe(a) && f in a.files && f !in a.downloads && a.files[f].direction == IN
    ensures AllSafe(a.(files := a.files[f := a.files[f].(status := Both)]))
  {
    var b := a.(files := a.files[f := a.files[f].(status := Both)]);
    forall id ensures Safe(ViewOf(b, id)) {
      assert Safe(ViewOf(a, id));
      FileView(a, f, Both, id);
    }
  }

  lemma RunJobSafe(a: Agent, f: Uuid, launch: Launch)
    requires AllSafe(a) && f in a.files && f !in a.downloads && a.files[f].direction == IN
    requires var v := ViewOf(a, a.files[f].sub);
             v.sub.Some? && v.jobs == 0 && v.sub.value.kind == Usecase && v.sub.value.status != Queuing
    ensures AllSafe(RunJob(a, f, launch))
  {
    MarkInputSafe(a, f);
    FileView(a, f, Both, a.files[f].sub);
    RunIfReadySafe(a.(files := a.files[f := a.files[f].(status := Both)]), a.files[f].sub, launch);
  }

  lemma DownloadDoneSafe(a: Agent, f: Uuid, launch: Launch)
    requires AllSafe(a) && f in a.downloads
    ensures AllSafe(Next(a, DownloadDone(f, launch)))
  {
    DownloadOver(a, f);
    DownloadOff(a, f, a.files[f].sub);
    RunJobSafe(a.(downloads := a.downloads - {f}), f, launch);
  }

  lemma DownloadFailedSafe(a: Agent, f: Uuid)
    requires AllSafe(a) && f in a.downloads
    ensures f in a.files && a.files[f].direction == IN
    ensures var b := FailJob(a.(downloads := a.downloads - {f}), a.files[f].sub);
            var v := ViewOf(b, a.files[f].sub);
            && AllSafe(b) && b.files == a.files && b.downloads == a.downloads - {f}
            && v.sub.Some? && v.jobs == 0 && v.sub.value.kind == Usecase && v.sub.value.status == Status.Failed
  {
    DownloadOver(a, f);
    var id := a.files[f].sub;
    var b := a.(downloads := a.downloads - {f});
    DownloadOff(a, f, id);
    FailSafe(b, id);
    ReportedView(b, Find(b.subs, SubId, id).value, Status.Failed, false, id);
  }

  lemma CopyFailedSafe(a: Agent, f: Uuid, launch: Launch)
    requires AllSafe(a) && f in a.downloads
    ensures f in a.files && AllSafe(RunJob(FailJob(a.(downloads := a.downloads - {f}), a.files[f].sub), f, launch))
  {
    DownloadFailedSafe(a, f);
    RunJobSafe(FailJob(a.(downloads := a.downloads - {f}), a.files[f].sub), f, launch);
  }

  lemma UploadOver(a: Agent, f: Uuid)
    requires AllSafe(a) && f in a.uploads
    ensures f in a.files && AllSafe(a.(uploads := a.uploads - {f}))
    ensures var v := ViewOf(a, a.files[f].sub);
            && v.sub.Some? && v.finished && v.done == 0 && v.sub.value.kind == Usecase && v.sub.value.status != Queuing
            && f in v.files && v.files[f].direction == OUT && v.files[f].status == Uploading
  {
    var id := a.files[f].sub;
    assert Safe(ViewOf(a, id)) && f in ViewOf(a, id).up;
    forall other ensures Safe(ViewOf(a.(uploads := a.uploads - {f}), other)) {
      assert Safe(ViewOf(a, other));
      DownloadOff(a, f, other);
    }
  }

  lemma UploadFailedSafe(a: Agent, f: Uuid)
    requires AllSafe(a) && f in a.uploads
    ensures AllSafe(Next(a, UploadFailed(f)))
  {
    UploadLost(a, f);
    FailSafe(a.(uploads := a.uploads - {f}), a.files[f].sub);
  }

  lemma UploadLost(a: Agent, f: Uuid)
    requires AllSafe(a) && f in a.uploads
    ensures var b := a.(uploads := a.uploads - {f});
            f in a.files && AllSafe(b) && MayFail(ViewOf(b, a.files[f].sub))
  {
    UploadOver(a, f);
    DownloadOff(a, f, a.files[f].sub);
    var v := ViewOf(a.(uploads := a.uploads - {f}), a.files[f].sub);
    assert f in v.files && f !in v.up;
    assert LostOutput(v);
  }

  /** Marking an output as uploaded, and the completed report when it was the last. */
  lemma UploadDoneSafe(a: Agent, f: Uuid)
    requires AllSafe(a) && f in a.uploads
    ensures AllSafe(Next(a, UploadDone(f)))
  {
    UploadOver(a, f);
    var id := a.files[f].sub;
    var marked := a.(uploads := a.uploads - {f}, files := a.files[f := a.files[f].(status := Both)]);
    forall other
      ensures Safe(ViewOf(marked, other))
              && (AllBoth(marked.files, id, OUT) ==> Safe(ViewOf(Send(marked, id, true), other)))
    {
      assert Safe(ViewOf(a, other));
      UploadedView(a, f, other);
      SendView(marked, id, true, other);
      AllBothIsStaged(marked, id, OUT);
      if other == id { UploadedOwn(a, f); }
    }
    SendStored(marked, id, true);
  }

  lemma UploadedView(a: Agent, f: Uuid, id: Uuid)
    requires f in a.files
    ensures var v := ViewOf(a, id);
            ViewOf(a.(uploads := a.uploads - {f}, files := a.files[f := a.files[f].(status := Both)]), id)
            == v.(up := v.up - {f},
                  files := if f in v.files then v.files[f := a.files[f].(status := Both)] else v.files)
  {
    var b := a.(uploads := a.uploads - {f});
    DownloadOff(a, f, id);
    FileView(b, f, Both, id);
  }

  /** The sub-task itself, after one of its uploads is done. */
  lemma UploadedOwn(a: Agent, f: Uuid)
    requires AllSafe(a) && f in a.uploads && f in a.files
    ensures var v := ViewOf(a, a.files[f].sub);
            f in v.files &&
            var v' := v.(up := v.up - {f}, files := v.files[f := a.files[f].(status := Both)]);
            && Safe(v')
            && (Staged(v'.files, OUT) ==> v'.failed == 0 && Safe(v'.(done := v'.done + 1)))
  {
    UploadOver(a, f);
    var v := ViewOf(a, a.files[f].sub);
    assert Safe(v) && f in v.up;
    var v' := v.(up := v.up - {f}, files := v.files[f := a.files[f].(status := Both)]);
    if LostOutput(v) {
      var g :| g in v.files && v.files[g].direction == OUT && v.files[g].status != Both && g !in v.up;
      assert g != f && g in v'.files && v'.files[g] == v.files[g];
    }
  }

  lemma JobEndSafe(a: Agent, id: Uuid, state: JobState)
    requires AllSafe(a) && Enabled(a, JobObserved(id, state))
    ensures AllSafe(RefreshStatus(a, id, state))
  {
    var s := Find(a.subs, SubId, id).value;
    var v := ViewOf(a, id);
    assert Safe(v);
    if state == JobFailed || state == JobUnknown {
      FailSafe(a, id);
    } else if state == JobCompleted {
      JobCompletedSafe(a, id);
    }
  }

  /** The view of a sub-task whose output files have just been sent. */
  lemma DeliverView(a: Agent, sub: Uuid, id: Uuid)
    ensures var outs := FilesOf(a.files, sub, OUT);
            var v := ViewOf(a, id);
            var b := a.(files := MarkAll(a.files, outs, Uploading), uploads := a.uploads + outs);
            ViewOf(b, id) == if id == sub then v.(files := MarkAll(v.files, outs, Uploading), up := v.up + outs) else v
  {
    var outs := FilesOf(a.files, sub, OUT);
    MarkView(a, sub, OUT, Uploading, id);
    var v := ViewOf(a, id);
    assert (a.uploads + outs) * v.files.Keys == if id == sub then v.up + outs else v.up;
  }

  lemma CompletingView(a: Agent, s: SubTask, id: Uuid)
    requires Distinct(Keys(a.subs, SubId)) && Find(a.subs, SubId, s.id) == Some(s)
    ensures ViewOf(Complete(a, s), id) ==
            if id == s.id then ViewOf(a, id).(sub := Some(s.(status := Completing)), finished := true)
            else ViewOf(a, id)
  {
    SetSubView(a, s.(status := Completing), id);
  }

  lemma CompletingSafe(a: Agent, s: SubTask)
    requires AllSafe(a) && Find(a.subs, SubId, s.id) == Some(s) && s.status == Running && s.job.Some?
    ensures AllSafe(Complete(a, s))
    ensures var v := ViewOf(Complete(a, s), s.id);
            v.sub == Some(s.(status := Completing)) && v.finished && v.done == 0 && v.failed == 0 && s.kind == Usecase
  {
    SetSubStored(a, s.(status := Completing));
    assert Safe(ViewOf(a, s.id));
    CompletingView(a, s, s.id);
    forall other ensures Safe(ViewOf(Complete(a, s), other)) {
      assert Safe(ViewOf(a, other));
      CompletingView(a, s, other);
    }
  }

  lemma CompletedReportSafe(a: Agent, id: Uuid)
    requires AllSafe(a) && AllBoth(a.files, id, OUT)
    requires var v := ViewOf(a, id);
             v.sub.Some? && v.sub.value.status == Completing && v.finished && v.done == 0 && v.failed == 0
    ensures AllSafe(Send(a, id, true))
  {
    AllBothIsStaged(a, id, OUT);
    SendStored(a, id, true);
    forall other ensures Safe(ViewOf(Send(a, id, true), other)) {
      assert Safe(ViewOf(a, other));
      SendView(a, id, true, other);
    }
  }

  lemma JobCompletedSafe(a: Agent, id: Uuid)
    requires AllSafe(a) && Enabled(a, JobObserved(id, JobCompleted))
    ensures AllSafe(RefreshStatus(a, id, JobCompleted))
  {
    var s := Find(a.subs, SubId, id).value;
    CompletingSafe(a, s);
    DeliveredSafe(Complete(a, s), id);
  }

  lemma DeliveredSafe(a: Agent, id: Uuid)
    requires AllSafe(a)
    requires var v := ViewOf(a, id);
             v.sub.Some? && v.sub.value.status == Completing && v.finished && v.done == 0 && v.failed == 0
    ensures AllSafe(Delivered(a, id))
  {
    if FilesOf(a.files, id, OUT) == {} {
      assert AllBoth(a.files, id, OUT);
      CompletedReportSafe(a, id);
    } else {
      DeliverSafe(a, id);
    }
  }

  lemma DeliverSafe(a: Agent, id: Uuid)
    requires AllSafe(a)
    requires var v := ViewOf(a, id);
             v.sub.Some? && v.sub.value.status == Completing && v.finished && v.done == 0 && v.failed == 0
    ensures var outs := FilesOf(a.files, id, OUT);
            AllSafe(a.(files := MarkAll(a.files, outs, Uploading), uploads := a.uploads + outs))
  {
    var outs := FilesOf(a.files, id, OUT);
    var b := a.(files := MarkAll(a.files, outs, Uploading), uploads := a.uploads + outs);
    forall other ensures Safe(ViewOf(b, other)) {
      assert Safe(ViewOf(a, other));
      DeliverView(a, id, other);
      MarkView(a, id, OUT, Uploading, other);
    }
  }

  /** A deployment command taken off the channel. */
  lemma UndeployedSafe(a: Agent, id: Uuid)
    requires AllSafe(a)
    ensures var b := a.(deploys := a.deploys - {id});
            && AllSafe(b) && ViewOf(b, id) == ViewOf(a, id).(deploying := false)
  {
    var b := a.(deploys := a.deploys - {id});
    forall other ensures Safe(ViewOf(b, other)) {
      assert Safe(ViewOf(a, other));
      assert ViewOf(b, other) == ViewOf(a, other).(deploying := ViewOf(a, other).deploying && other != id);
    }
  }

  lemma DeployedOwn(v: View, deployed: bool)
    requires Safe(v) && !v.deploying && v.sub.Some? && v.sub.value.kind == Deployment && v.sub.value.status == Running
    ensures Safe(Ended(v, if deployed then Completed else Status.Failed, deployed))
  {
  }

  lemma EndDeploymentSafe(a: Agent, id: Uuid, deployed: bool)
    requires AllSafe(a)
    requires var v := ViewOf(a, id);
             v.sub.Some? && !v.deploying && v.sub.value.kind == Deployment && v.sub.value.status == Running
    ensures AllSafe(EndDeployment(a, id, deployed))
  {
    DeployedOwn(ViewOf(a, id), deployed);
    ReportedSafe(a, Find(a.subs, SubId, id).value, if deployed then Completed else Status.Failed, deployed);
  }

  lemma DeployEndSafe(a: Agent, id: Uuid, deployed: bool)
    requires AllSafe(a) && id in a.deploys
    ensures AllSafe(EndDeployment(a.(deploys := a.deploys - {id}), id, deployed))
  {
    assert Safe(ViewOf(a, id));
    UndeployedSafe(a, id);
    EndDeploymentSafe(a.(deploys := a.deploys - {id}), id, deployed);
  }

  lemma ConsumeSafe(a: Agent, i: nat, w: World)
    requires AllSafe(a) && i < |a.reports|
    ensures AllSafe(Next(a, Consume(i, w)))
  {
    var r := a.reports[i];
    var b := Taken(a, i);
    assert r in a.reports;
    SameViews(a, b);
    if r.completed {
      CompleteSubTaskSafe(b, r.sub, w);
    } else {
      FailSubTaskSafe(b, r.sub, w);
    }
  }

  lemma FailSubTaskSafe(a: Agent, id: Uuid, w: World)
    requires AllSafe(a)
    ensures AllSafe(FailSubTask(a, id, w))
  {
    FailSubTaskIs(a, id, w);
    var freed := a.(count := a.count - 1);
    SameViews(a, freed);
    var s := Find(a.subs, SubId, id);
    if s.Some? {
      var t := Find(a.tasks, TaskId, s.value.parent);
      if t.Some? {
        var ended := SetTask(freed, t.value.(status := Status.Failed));
        SameViews(a, ended);
        ScheduleSafe(ended, 0, w);
      }
    }
  }

  lemma FreedSafe(a: Agent, s: SubTask)
    requires AllSafe(a) && Find(a.subs, SubId, s.id) == Some(s) && SentFor(a.past.sent, s.id, true) > 0
    ensures AllSafe(Freed(a, s))
  {
    assert Safe(ViewOf(a, s.id));
    StatusSafe(a, s, Completed);
    SameViews(SetSub(a, s.(status := Completed)), Freed(a, s));
  }

  lemma EndTaskSafe(a: Agent, t: Task, w: World)
    requires AllSafe(a)
    ensures AllSafe(ScheduleNext(SetTask(a, t), w))
  {
    SameViews(a, SetTask(a, t));
    ScheduleSafe(SetTask(a, t), 0, w);
  }

  lemma ProceedSafe(a: Agent, task: Uuid, w: World)
    requires AllSafe(a)
    ensures AllSafe(Proceed(a, task, w))
  {
    var t := Find(a.tasks, TaskId, task);
    if t.Some? {
      EndTaskSafe(a, t.value.(status := Completed), w);
      ScheduleOneSafe(a, task, w);
    }
  }

  lemma FreedProceedSafe(a: Agent, s: SubTask, w: World)
    requires AllSafe(a) && Find(a.subs, SubId, s.id) == Some(s) && SentFor(a.past.sent, s.id, true) > 0
    ensures AllSafe(Proceed(Freed(a, s), s.parent, w))
  {
    FreedSafe(a, s);
    ProceedSafe(Freed(a, s), s.parent, w);
  }

  lemma CompleteSubTaskSafe(a: Agent, id: Uuid, w: World)
    requires AllSafe(a) && SentFor(a.past.sent, id, true) > 0
    ensures AllSafe(CompleteSubTask(a, id, w))
  {
    CompleteSubTaskIs(a, id, w);
    var s := Find(a.subs, SubId, id);
    if s.Some? { FreedProceedSafe(a, s.value, w); }
  }

  // ---------------------------------------------------------------- new work

  lemma LastIsFresh(subs: seq<SubTask>, news: seq<SubTask>)
    requires news != [] && Distinct(Keys(news, SubId)) && forall s, x :: s in news && x in subs ==> x.id != s.id
    ensures Find(subs + news[..|news| - 1], SubId, news[|news| - 1].id).None?
  {
    var front, last := news[..|news| - 1], news[|news| - 1];
    forall x | x in front ensures x.id != last.id {
      var j :| 0 <= j < |front| && front[j] == x;
      DistinctAny(Keys(news, SubId), j, |news| - 1);
    }
  }

  lemma LastInserted(subs: seq<SubTask>, news: seq<SubTask>)
    requires news != [] && InsertSubs(subs, news[..|news| - 1]) == subs + news[..|news| - 1]
    requires Find(subs + news[..|news| - 1], SubId, news[|news| - 1].id).None?
    ensures InsertSubs(subs, news) == subs + news
  {
    InsertNew(subs + news[..|news| - 1], news[|news| - 1]);
    LastAppended(subs, news);
  }

  lemma LastAppended(subs: seq<SubTask>, news: seq<SubTask>)
    requires news != []
    ensures subs + news[..|news| - 1] + [news[|news| - 1]] == subs + news
  {
  }

  lemma InsertNew(subs: seq<SubTask>, s: SubTask)
    requires Find(subs, SubId, s.id).None?
    ensures Insert(subs, SubId, s) == subs + [s]
  {
  }

  lemma {:induction false} FreshInserted(subs: seq<SubTask>, news: seq<SubTask>)
    requires Distinct(Keys(subs, SubId)) && Distinct(Keys(news, SubId))
    requires forall s, x :: s in news && x in subs ==> x.id != s.id
    ensures InsertSubs(subs, news) == subs + news
    ensures Distinct(Keys(subs + news, SubId))
  {
    if news == [] {
      assert subs + news == subs;
    } else {
      var n := |news| - 1;
      var front, last := news[..n], news[n];
      assert Keys(front, SubId) == Keys(news, SubId)[..n];
      FreshInserted(subs, front);
      LastIsFresh(subs, news);
      LastInserted(subs, news);
      AppendDistinct(subs + front, last);
      assert subs + front + [last] == subs + news;
    }
  }

  lemma AppendDistinct(subs: seq<SubTask>, last: SubTask)
    requires Distinct(Keys(subs, SubId)) && Find(subs, SubId, last.id).None?
    ensures Distinct(Keys(subs + [last], SubId))
  {
    var ks := Keys(subs + [last], SubId);
    forall i, j | 0 <= i < j < |ks| ensures ks[i] != ks[j] {
      if j < |subs| { DistinctAny(Keys(subs, SubId), i, j); } else { assert subs[i] in subs; }
    }
  }

  /** The files of one sub-task after some new ones were stored. */
  lemma StoredFiles(files: map<Uuid, File>, news: map<Uuid, File>, id: Uuid)
    requires files.Keys !! news.Keys
    ensures OwnFiles(files + news, id) == OwnFiles(files, id) + OwnFiles(news, id)
  {
  }

  lemma StoredSub(a: Agent, task: Uuid, body: seq<SubTask>, files: map<Uuid, FileSpec>, id: Uuid)
    requires WellStored(a) && NewWork(a, task, body, files)
    ensures Find(Stored(a, task, body, files).subs, SubId, id) ==
            var s := Find(a.subs, SubId, id); if s.Some? then s else Find(Queued(body), SubId, id)
  {
    QueuedFresh(a, task, body, files);
    FreshInserted(a.subs, Queued(body));
    FindConcat(a.subs, Queued(body), SubId, id);
  }

  lemma StoredView(a: Agent, task: Uuid, body: seq<SubTask>, files: map<Uuid, FileSpec>, id: Uuid)
    requires WellStored(a) && NewWork(a, task, body, files)
    ensures var v := ViewOf(a, id);
            ViewOf(Stored(a, task, body, files), id) ==
            v.(sub := if v.sub.Some? then v.sub else Find(Queued(body), SubId, id),
               files := v.files + OwnFiles(NewFiles(files), id))
  {
    StoredSub(a, task, body, files, id);
    StoredFiles(a.files, NewFiles(files), id);
    StoredChannel(a.downloads, a.files, NewFiles(files), id);
    StoredChannel(a.uploads, a.files, NewFiles(files), id);
  }

  lemma StoredChannel(channel: set<Uuid>, files: map<Uuid, File>, news: map<Uuid, File>, id: Uuid)
    requires channel <= files.Keys && files.Keys !! news.Keys
    ensures channel * (OwnFiles(files, id) + OwnFiles(news, id)).Keys == channel * OwnFiles(files, id).Keys
  {
  }

  lemma QueuedFresh(a: Agent, task: Uuid, body: seq<SubTask>, files: map<Uuid, FileSpec>)
    requires NewWork(a, task, body, files)
    ensures Keys(Queued(body), SubId) == Keys(body, SubId)
    ensures forall s, x :: s in Queued(body) && x in a.subs ==> x.id != s.id
    ensures forall s :: s in Queued(body) ==>
              s.status == Queuing && s.job.None? && s.parent == task && s.kind != Unsupported
  {
    forall s | s in Queued(body) ensures exists b :: b in body && s == b.(status := Queuing) {
      var i :| 0 <= i < |body| && Queued(body)[i] == s;
      assert body[i] in body;
    }
  }

  /** New work changes nothing for the sub-tasks there were. */
  lemma StoredOwnSafe(v: View, sub: Option<SubTask>, own: map<Uuid, File>)
    requires Safe(v)
    requires own != map[] ==> v.sub.None? && sub.Some? && sub.value.kind == Usecase
    requires sub.Some? ==> sub.value.status == Queuing && sub.value.job.None? && sub.value.kind != Unsupported
    ensures Safe(v.(sub := if v.sub.Some? then v.sub else sub, files := v.files + own))
  {
    if v.sub.Some? || sub.None? { assert v.files + own == v.files; }
  }

  lemma StoredSafe(a: Agent, task: Uuid, body: seq<SubTask>, files: map<Uuid, FileSpec>)
    requires AllSafe(a) && NewWork(a, task, body, files)
    ensures AllSafe(Stored(a, task, body, files))
  {
    var b := Stored(a, task, body, files);
    QueuedFresh(a, task, body, files);
    FreshInserted(a.subs, Queued(body));
    forall id ensures Safe(ViewOf(b, id)) {
      assert Safe(ViewOf(a, id));
      StoredView(a, task, body, files, id);
      StoredOwnFiles(a, task, body, files, id);
      StoredOwnSafe(ViewOf(a, id), Find(Queued(body), SubId, id), OwnFiles(NewFiles(files), id));
    }
  }

  /** New files belong to new use-case sub-tasks. */
  lemma StoredOwnFiles(a: Agent, task: Uuid, body: seq<SubTask>, files: map<Uuid, FileSpec>, id: Uuid)
    requires NewWork(a, task, body, files)
    ensures OwnFiles(NewFiles(files), id) != map[] ==>
              && Find(a.subs, SubId, id).None?
              && Find(Queued(body), SubId, id).Some? && Find(Queued(body), SubId, id).value.kind == Usecase
  {
    if f: Uuid :| f in OwnFiles(NewFiles(files), id) {
      var s :| s in body && s.kind == Usecase && s.id == files[f].sub;
      var i :| 0 <= i < |body| && body[i] == s;
      QueuedFresh(a, task, body, files);
      FindUnique(Queued(body), SubId, i);
      assert Queued(body)[i] in Queued(body);
      assert forall x :: x in a.subs ==> x.id != s.id;
      FindHasId(a.subs, id);
    }
  }

  // ---------------------------------------------------------------- every run

  lemma StepSafe(a: Agent, step: Step)
    requires AllSafe(a) && Enabled(a, step)
    ensures AllSafe(Next(a, step))
  {
    match step
    case Submit(id, body, files, w) =>
      StoredSafe(a, id, body, files);
      ScheduleSafe(Stored(a, id, body, files), id, w);
    case Tick(w) => ScheduleSafe(a, 0, w);
    case DownloadDone(f, launch) => DownloadDoneSafe(a, f, launch);
    case DownloadFailed(f) => DownloadFailedSafe(a, f);
    case CopyFailed(f, launch) => CopyFailedSafe(a, f, launch);
    case UploadDone(f) => UploadDoneSafe(a, f);
    case UploadFailed(f) => UploadFailedSafe(a, f);
    case JobObserved(id, state) => JobEndSafe(a, id, state);
    case DeployEnded(id, deployed) => DeployEndSafe(a, id, deployed);
    case Consume(i, w) => ConsumeSafe(a, i, w);
  }

  function EmptyAgent(maxTasks: nat): Agent {
    Agent([], [], map[], maxTasks, 0, [], {}, {}, {}, [], History([], {}, {}, [], map[]))
  }

  ghost predicate StepTo(a: Agent, step: Step, b: Agent) {
    Enabled(a, step) && b == Next(a, step)
  }

  ghost function ServiceCalls(): (Agent, Step, Agent) -> bool {
    (a, step, b) => StepTo(a, step, b)
  }

  /** A run from the empty agent: the states it goes through, each reached by one service call. */
  ghost predicate Run(states: seq<Agent>, steps: seq<Step>, maxTasks: nat) {
    Unfolds(states, steps, EmptyAgent(maxTasks), ServiceCalls())
  }

  lemma EmptySafe(maxTasks: nat)
    ensures AllSafe(EmptyAgent(maxTasks))
  {
    forall id ensures Safe(ViewOf(EmptyAgent(maxTasks), id)) {}
  }

  ghost function SafeStates(): Agent -> bool { a => AllSafe(a) }

  lemma SafetyKept()
    ensures Kept(SafeStates(), ServiceCalls())
  {
    forall a, step, b | AllSafe(a) && StepTo(a, step, b) ensures AllSafe(b) { StepSafe(a, step); }
  }

  lemma RunIsSafe(states: seq<Agent>, steps: seq<Step>, maxTasks: nat, i: nat)
    requires Run(states, steps, maxTasks) && i < |states|
    ensures AllSafe(states[i])
  {
    EmptySafe(maxTasks);
    SafetyKept();
    HoldsFrom(states, steps, EmptyAgent(maxTasks), ServiceCalls(), SafeStates(), 0, i);
  }

  /** Staging safety, for every sub-task in every run: its job is submitted at most once, and only with
      every input staged; a completed report is sent at most once, and for a use case only after its
      job was seen completed and with every output delivered; it never gets both a completed and a
      failed report. */
  lemma StagingSafety(states: seq<Agent>, steps: seq<Step>, maxTasks: nat, i: nat, id: Uuid)
    requires Run(states, steps, maxTasks) && i < |states|
    ensures var a := states[i];
            && Occurrences(a.jobs, id) <= 1
            && (Occurrences(a.jobs, id) == 1 ==> AllBoth(a.files, id, IN))
            && (id in a.past.finished ==> Occurrences(a.jobs, id) == 1)
    ensures var a := states[i];
            && SentFor(a.past.sent, id, true) <= 1
            && (SentFor(a.past.sent, id, true) == 0 || SentFor(a.past.sent, id, false) == 0)
            && (SentFor(a.past.sent, id, true) == 1 ==>
                  var s := Find(a.subs, SubId, id);
                  s.Some? && (s.value.kind == Usecase ==> id in a.past.finished && AllBoth(a.files, id, OUT)))
  {
    RunIsSafe(states, steps, maxTasks, i);
    var a := states[i];
    assert Safe(ViewOf(a, id));
    AllBothIsStaged(a, id, IN);
    AllBothIsStaged(a, id, OUT);
  }
}
