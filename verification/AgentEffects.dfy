/** What each service call does, in every run: the record it changes, the report it sends, the files and
    commands it touches. Told in terms of the states before and after alone. */
module AgentEffects {
  import opened Basics
  import opened AgentModel
  import opened Histories
  import opened AgentStaging

  // ---------------------------------------------------------------- the parts of an effect

  /** The record of one sub-task changes and no other. */
  ghost predicate Becomes(a: Agent, b: Agent, id: Uuid, r: SubTask) {
    Find(b.subs, SubId, id) == Some(r) && forall x :: x != id ==> Find(b.subs, SubId, x) == Find(a.subs, SubId, x)
  }

  /** These reports are sent, and wait behind the others. */
  ghost predicate Sends(a: Agent, b: Agent, more: seq<Report>) {
    b.reports == a.reports + more && b.past.sent == a.past.sent + more
  }

  /** Tasks, slots and what was consumed stay. */
  ghost predicate Undisturbed(a: Agent, b: Agent) {
    && b.tasks == a.tasks && b.count == a.count && b.maxTasks == a.maxTasks
    && b.past.consumed == a.past.consumed && b.past.taken == a.past.taken && b.past.submitted == a.past.submitted
  }

  predicate IsOf(f: File, id: Uuid, direction: Direction) {
    f.sub == id && f.direction == direction
  }

  ghost predicate HasFiles(a: Agent, id: Uuid, direction: Direction) {
    exists f :: f in a.files && IsOf(a.files[f], id, direction)
  }

  /** Every file of that direction is on both sides. */
  ghost predicate AllThere(a: Agent, id: Uuid, direction: Direction) {
    forall f :: f in a.files && IsOf(a.files[f], id, direction) ==> a.files[f].status == Both
  }

  /** Every file of that direction is marked; no other file changes. */
  ghost predicate Marked(a: Agent, b: Agent, id: Uuid, direction: Direction, status: FileStatus) {
    && b.files.Keys == a.files.Keys
    && forall f :: f in a.files ==>
         b.files[f] == if IsOf(a.files[f], id, direction) then a.files[f].(status := status) else a.files[f]
  }

  /** A command for every file of that direction is on the channel, behind what was there. */
  ghost predicate Commanded(a: Agent, before: set<Uuid>, after: set<Uuid>, id: Uuid, direction: Direction) {
    forall f :: f in after <==> f in before || (f in a.files && IsOf(a.files[f], id, direction))
  }

  ghost predicate Arrives(a: Agent, b: Agent, f: Uuid)
    requires f in a.files
  {
    b.files == a.files[f := a.files[f].(status := Both)]
  }

  lemma SetBecomes(a: Agent, s: SubTask)
    requires Distinct(Keys(a.subs, SubId)) && Find(a.subs, SubId, s.id).Some?
    ensures Becomes(a, SetSub(a, s), s.id, s)
  {
    forall x ensures Find(SetSub(a, s).subs, SubId, x) == if x == s.id then Some(s) else Find(a.subs, SubId, x) {
      MoveBackFinds(a.subs, SubId, s, x);
    }
  }

  lemma ReadyIs(a: Agent, id: Uuid, direction: Direction)
    ensures AllBoth(a.files, id, direction) <==> AllThere(a, id, direction)
    ensures FilesOf(a.files, id, direction) == {} <==> !HasFiles(a, id, direction)
  {
    forall f ensures f in FilesOf(a.files, id, direction) <==> f in a.files && IsOf(a.files[f], id, direction) {}
  }

  // ---------------------------------------------------------------- a job seen by the scheduler

  /** A job that failed or is unknown fails its sub-task and reports it. A job that completed sends the
      outputs, or the completed report when there are none. In any other state nothing changes. */
  ghost predicate Observes(a: Agent, b: Agent, id: Uuid, state: JobState) {
    var s := Find(a.subs, SubId, id);
    && s.Some?
    && match state
       case JobFailed => Fails(a, b, s.value)
       case JobUnknown => Fails(a, b, s.value)
       case JobCompleted => Completes(a, b, s.value)
       case JobQueuing => b == a
       case JobRunning => b == a
       case JobSuspended => b == a
       case JobCompleting => b == a
  }

  ghost predicate Fails(a: Agent, b: Agent, s: SubTask) {
    && Becomes(a, b, s.id, s.(status := Status.Failed)) && Sends(a, b, [Report(s.id, false)])
    && b == a.(subs := b.subs, reports := b.reports, past := a.past.(sent := b.past.sent))
  }

  ghost predicate Completes(a: Agent, b: Agent, s: SubTask) {
    && Becomes(a, b, s.id, s.(status := Completing)) && Undisturbed(a, b)
    && b.downloads == a.downloads && b.deploys == a.deploys && b.jobs == a.jobs
    && b.past.finished == a.past.finished + {s.id}
    && if HasFiles(a, s.id, OUT)
       then Sends(a, b, []) && Marked(a, b, s.id, OUT, Uploading) && Commanded(a, a.uploads, b.uploads, s.id, OUT)
       else Sends(a, b, [Report(s.id, true)]) && b.files == a.files && b.uploads == a.uploads
  }

  lemma FailJobFails(a: Agent, s: SubTask)
    requires Distinct(Keys(a.subs, SubId)) && Find(a.subs, SubId, s.id) == Some(s)
    ensures Fails(a, FailJob(a, s.id), s)
  {
    SetBecomes(a, s.(status := Status.Failed));
  }

  lemma JobCompletes(a: Agent, s: SubTask)
    requires Distinct(Keys(a.subs, SubId)) && Find(a.subs, SubId, s.id) == Some(s)
    ensures Completes(a, Delivered(Complete(a, s), s.id), s)
  {
    var b := Complete(a, s);
    SetBecomes(a, s.(status := Completing));
    ReadyIs(b, s.id, OUT);
    assert HasFiles(a, s.id, OUT) <==> HasFiles(b, s.id, OUT);
    DeliveredDoes(b, s.id);
  }

  lemma DeliveredDoes(a: Agent, id: Uuid)
    ensures var b := Delivered(a, id);
            && b == a.(files := b.files, uploads := b.uploads, reports := b.reports,
                       past := a.past.(sent := b.past.sent))
            && if HasFiles(a, id, OUT)
               then Sends(a, b, []) && Marked(a, b, id, OUT, Uploading) && Commanded(a, a.uploads, b.uploads, id, OUT)
               else Sends(a, b, [Report(id, true)]) && b.files == a.files && b.uploads == a.uploads
  {
    ReadyIs(a, id, OUT);
    forall f ensures f in FilesOf(a.files, id, OUT) <==> f in a.files && IsOf(a.files[f], id, OUT) {}
  }

  lemma ObservedDoes(a: Agent, id: Uuid, state: JobState)
    requires Distinct(Keys(a.subs, SubId)) && Find(a.subs, SubId, id).Some?
    ensures Observes(a, RefreshStatus(a, id, state), id, state)
  {
    var s := Find(a.subs, SubId, id).value;
    match state
    case JobFailed => FailJobFails(a, s);
    case JobUnknown => FailJobFails(a, s);
    case JobCompleted => JobCompletes(a, s);
    case JobQueuing =>
    case JobRunning =>
    case JobSuspended =>
    case JobCompleting =>
  }

  /** In every run, a failed report of the sub-task goes out, and its status becomes failed, exactly when the
      job has failed or is unknown; a completed job and every other state do what they are said to. */
  lemma JobObservedDoes(states: seq<Agent>, steps: seq<Step>, maxTasks: nat, i: nat)
    requires Run(states, steps, maxTasks) && i < |steps| && steps[i].JobObserved?
    ensures var a, b, id, state := states[i], states[i + 1], steps[i].sub, steps[i].state;
            && Observes(a, b, id, state)
            && (Sends(a, b, [Report(id, false)]) <==> state == JobFailed || state == JobUnknown)
            && (Find(b.subs, SubId, id).value.status == Status.Failed <==> state == JobFailed || state == JobUnknown)
  {
    var a, id := states[i], steps[i].sub;
    SafeStep(states, steps, maxTasks, i);
    ObservedDoes(a, id, steps[i].state);
    assert a.reports + [Report(id, false)] != a.reports;
    assert |a.reports + [Report(id, false)]| == |a.reports| + 1;
    assert (a.reports + [Report(id, true)])[|a.reports|].completed;
    assert !(a.reports + [Report(id, false)])[|a.reports|].completed;
  }

  lemma SafeStep(states: seq<Agent>, steps: seq<Step>, maxTasks: nat, i: nat)
    requires Run(states, steps, maxTasks) && i < |steps|
    ensures AllSafe(states[i]) && Enabled(states[i], steps[i]) && states[i + 1] == Next(states[i], steps[i])
  {
    RunIsSafe(states, steps, maxTasks, i);
    assert ServiceCalls()(states[i], steps[i], states[i + 1]);
  }

  // ---------------------------------------------------------------- transfers

  /** A finished upload puts its file on both sides. When that was the last output, and only then, the
      completed report of its sub-task is sent. */
  ghost predicate Uploads(a: Agent, b: Agent, f: Uuid) {
    && f in a.files && Arrives(a, b, f)
    && Sends(a, b, if AllThere(b, a.files[f].sub, OUT) then [Report(a.files[f].sub, true)] else [])
    && b == a.(files := b.files, uploads := a.uploads - {f}, reports := b.reports, past := a.past.(sent := b.past.sent))
  }

  lemma UploadedDoes(a: Agent, f: Uuid)
    requires f in a.files
    ensures Uploads(a, CompleteJob(a.(uploads := a.uploads - {f}), f), f)
  {
    var b := CompleteJob(a.(uploads := a.uploads - {f}), f);
    ReadyIs(b, a.files[f].sub, OUT);
  }

  lemma UploadDoneDoes(states: seq<Agent>, steps: seq<Step>, maxTasks: nat, i: nat)
    requires Run(states, steps, maxTasks) && i < |steps| && steps[i].UploadDone?
    ensures Uploads(states[i], states[i + 1], steps[i].file)
  {
    SafeStep(states, steps, maxTasks, i);
    UploadOver(states[i], steps[i].file);
    UploadedDoes(states[i], steps[i].file);
  }

  /** What an attempt to start a job does: nothing until every input is there, and then what the launch
      meets: the job is recorded, or the sub-task fails and is reported, or nothing again. */
  ghost predicate Attempts(a: Agent, b: Agent, s: SubTask, launch: Launch) {
    if !AllThere(a, s.id, IN) then b == a
    else
      match launch
      case SubmitError => b == a
      case SoftwareMissing => Fails(a, b, s)
      case Submitted(job) =>
        && Becomes(a, b, s.id, s.(job := Some(job))) && b.jobs == a.jobs + [s.id]
        && b == a.(subs := b.subs, jobs := b.jobs)
  }

  lemma RunAttempts(a: Agent, s: SubTask, launch: Launch)
    requires Distinct(Keys(a.subs, SubId)) && Find(a.subs, SubId, s.id) == Some(s)
    ensures Attempts(a, RunIfReady(a, s.id, launch), s, launch)
  {
    ReadyIs(a, s.id, IN);
    match launch
    case SubmitError =>
    case SoftwareMissing => FailJobFails(a, s);
    case Submitted(job) => SetBecomes(a, s.(job := Some(job)));
  }

  /** The state once the file has arrived and its command is taken off the channel. */
  ghost function WithInput(a: Agent, f: Uuid): Agent
    requires f in a.files
  {
    a.(files := a.files[f := a.files[f].(status := Both)], downloads := a.downloads - {f})
  }

  ghost predicate Downloads(a: Agent, b: Agent, f: Uuid, launch: Launch) {
    f in a.files &&
    var s := Find(a.subs, SubId, a.files[f].sub);
    s.Some? && Attempts(WithInput(a, f), b, s.value, launch)
  }

  /** A finished download puts its file on both sides, and the last input starts the job. */
  lemma DownloadDoneDoes(states: seq<Agent>, steps: seq<Step>, maxTasks: nat, i: nat)
    requires Run(states, steps, maxTasks) && i < |steps| && steps[i].DownloadDone?
    ensures Downloads(states[i], states[i + 1], steps[i].file, steps[i].launch)
  {
    SafeStep(states, steps, maxTasks, i);
    var a, f := states[i], steps[i].file;
    DownloadOver(a, f);
    RunAttempts(WithInput(a, f), Find(a.subs, SubId, a.files[f].sub).value, steps[i].launch);
  }

  /** A failed transfer takes its command off the channel, fails its sub-task and reports it. */
  lemma TransferFailedDoes(states: seq<Agent>, steps: seq<Step>, maxTasks: nat, i: nat)
    requires Run(states, steps, maxTasks) && i < |steps| && (steps[i].DownloadFailed? || steps[i].UploadFailed?)
    ensures var a, b, f := states[i], states[i + 1], steps[i].file;
            && f in a.files && Find(a.subs, SubId, a.files[f].sub).Some?
            && var rest := if steps[i].DownloadFailed? then a.(downloads := a.downloads - {f})
                           else a.(uploads := a.uploads - {f});
               Fails(rest, b, Find(a.subs, SubId, a.files[f].sub).value)
  {
    SafeStep(states, steps, maxTasks, i);
    var a, f := states[i], steps[i].file;
    if steps[i].DownloadFailed? {
      DownloadOver(a, f);
      FailJobFails(a.(downloads := a.downloads - {f}), Find(a.subs, SubId, a.files[f].sub).value);
    } else {
      UploadOver(a, f);
      FailJobFails(a.(uploads := a.uploads - {f}), Find(a.subs, SubId, a.files[f].sub).value);
    }
  }

  /** A failed copy does both: its sub-task fails and is reported, and then the file counts as arrived. */
  lemma CopyFailedDoes(states: seq<Agent>, steps: seq<Step>, maxTasks: nat, i: nat) returns (mid: Agent)
    requires Run(states, steps, maxTasks) && i < |steps| && steps[i].CopyFailed?
    ensures var a, b, f := states[i], states[i + 1], steps[i].file;
            && f in a.files && Find(a.subs, SubId, a.files[f].sub).Some?
            && var s := Find(a.subs, SubId, a.files[f].sub).value;
               && Fails(WithInput(a, f), mid, s)
               && Attempts(mid, b, s.(status := Status.Failed), steps[i].launch)
  {
    SafeStep(states, steps, maxTasks, i);
    var a, f := states[i], steps[i].file;
    DownloadOver(a, f);
    var s := Find(a.subs, SubId, a.files[f].sub).value;
    mid := FailJob(WithInput(a, f), s.id);
    FailJobFails(WithInput(a, f), s);
    SetSubView(WithInput(a, f), s.(status := Status.Failed), s.id);
    RunAttempts(mid, s.(status := Status.Failed), steps[i].launch);
  }

  // ---------------------------------------------------------------- deployments

  /** The end of a deployment: its command is off the channel, and status and report say how it ended. */
  lemma DeployEndedDoes(states: seq<Agent>, steps: seq<Step>, maxTasks: nat, i: nat)
    requires Run(states, steps, maxTasks) && i < |steps| && steps[i].DeployEnded?
    ensures var a, b, id, deployed := states[i], states[i + 1], steps[i].sub, steps[i].deployed;
            var s := Find(a.subs, SubId, id);
            && s.Some? && Sends(a, b, [Report(id, deployed)])
            && Becomes(a, b, id, s.value.(status := if deployed then Completed else Status.Failed))
            && b == a.(subs := b.subs, deploys := a.deploys - {id}, reports := b.reports,
                       past := a.past.(sent := b.past.sent))
  {
    SafeStep(states, steps, maxTasks, i);
    var a, id, deployed := states[i], steps[i].sub, steps[i].deployed;
    assert Safe(ViewOf(a, id)) && ViewOf(a, id).deploying;
    SetBecomes(a, Find(a.subs, SubId, id).value.(status := if deployed then Completed else Status.Failed));
  }
}
