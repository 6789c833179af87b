/** Slots and order over whole runs of the agent. */
module AgentRuns {
  import opened Basics
  import opened AgentModel
  import opened AgentStaging
  import opened AgentSlots
  import opened AgentEvents

  // ---------------------------------------------------------------- one task

  lemma {:induction false} QueuedMember(subs: seq<SubTask>, t: Uuid, id: Uuid)
    requires id in QueuedIds(subs, t)
    ensures exists s :: s in subs && s.id == id && s.status == Queuing
  {
    if QueuedHere(subs[0], t) == [id] {
      assert subs[0] in subs;
    } else {
      QueuedMember(subs[1..], t, id);
      var s :| s in subs[1..] && s.id == id && s.status == Queuing;
      assert s in subs;
    }
  }

  /** A listed sub-task is queued exactly when it is in the tail that was not started. */
  lemma QueuedOrStarted(p: Slots, t: Uuid, j: nat)
    requires Distinct(Keys(p.subs, SubId)) && t in p.submitted && Staggered(p, t) && j < |p.submitted[t]|
    ensures Sub(p, p.submitted[t][j]).value.status == Queuing <==> j >= Started(p, t)
  {
    var l := p.submitted[t];
    if j >= Started(p, t) {
      assert l[j] == QueuedIds(p.subs, t)[j - Started(p, t)];
      QueuedMember(p.subs, t, l[j]);
      var s :| s in p.subs && s.id == l[j] && s.status == Queuing;
      MemberFound(p.subs, s);
    }
  }

  /** Every sub-task of the task that was started is over. */
  ghost predicate Rested(p: Slots, t: Uuid)
    requires t in p.submitted
  {
    Staggered(p, t) && (Started(p, t) > 0 ==> DoneWith(p, p.submitted[t][Started(p, t) - 1]))
  }

  /** A started sub-task is not in the tail. */
  lemma StartedNotTail(l: seq<Uuid>, k: nat, j: nat)
    requires Distinct(l) && j < k <= |l|
    ensures l[j] !in l[k..]
  {
    forall m | 0 <= m < |l[k..]| ensures l[k..][m] != l[j] { DistinctAny(l, j, k + m); }
  }

  lemma RestedAt(p: Slots, t: Uuid, j: nat)
    requires Distinct(Keys(p.subs, SubId)) && t in p.submitted && Rested(p, t) && j < |p.submitted[t]|
    ensures var id := p.submitted[t][j];
            if id in QueuedIds(p.subs, t) then Sub(p, id).value.status == Queuing
            else Sub(p, id).value.status == Completed
  {
    if j >= Started(p, t) {
      QueuedOrStarted(p, t, j);
      QueuedTail(p, t, j);
    } else {
      StartedDone(p, t, j);
    }
  }

  lemma QueuedTail(p: Slots, t: Uuid, j: nat)
    requires t in p.submitted && Staggered(p, t) && Started(p, t) <= j < |p.submitted[t]|
    ensures p.submitted[t][j] in QueuedIds(p.subs, t)
  {
    assert p.submitted[t][j] == QueuedIds(p.subs, t)[j - Started(p, t)];
  }

  lemma StartedDone(p: Slots, t: Uuid, j: nat)
    requires t in p.submitted && Rested(p, t) && j < Started(p, t)
    ensures p.submitted[t][j] !in QueuedIds(p.subs, t) && DoneWith(p, p.submitted[t][j])
  {
    StartedNotTail(p.submitted[t], Started(p, t), j);
  }

  /** The sub-tasks in the body of a rested task are completed or queued. */
  lemma RestedBody(p: Slots, t: Uuid, s: SubTask)
    requires Listed(p) && t in p.submitted && Rested(p, t) && s in Body(p.subs, t)
    ensures if s.id in QueuedIds(p.subs, t) then s.status == Queuing else s.status == Completed
  {
    MemberFound(p.subs, s);
    assert Sub(p, s.id) == Some(s);
    var j :| 0 <= j < |p.submitted[t]| && p.submitted[t][j] == s.id;
    RestedAt(p, t, j);
  }

  lemma RestedNotBusy(p: Slots, t: Uuid)
    requires Listed(p) && t in p.submitted && Rested(p, t)
    ensures !Busy(Body(p.subs, t))
  {
    forall s | s in Body(p.subs, t) ensures s.status != Running && s.status != Completing { RestedBody(p, t, s); }
  }

  lemma AllCompletedIs(p: Slots, t: Uuid)
    requires Listed(p) && t in p.submitted && Rested(p, t)
    ensures (forall s :: s in Body(p.subs, t) ==> s.status == Completed) <==> QueuedIds(p.subs, t) == []
  {
    if QueuedIds(p.subs, t) == [] {
      forall s | s in Body(p.subs, t) ensures s.status == Completed { RestedBody(p, t, s); }
    } else {
      FirstIsHead(p.subs, t);
      assert FirstQueuing(Body(p.subs, t)).value in Body(p.subs, t);
    }
  }

  // ---------------------------------------------------------------- dispatching

  /** The other tasks are left alone. */
  ghost predicate OthersApart(p: Slots, q: Slots, t: Uuid) {
    forall u :: u in p.submitted && u != t ==> Apart(p, q, u)
  }

  lemma LaunchOrdered(a: Agent, t: Uuid, s: SubTask, w: World)
    requires AllSafe(a) && ReportsFit(a) && OrderedBut(SlotsOf(a), t) && Idle(SlotsOf(a), t)
    requires FirstQueuing(Body(a.subs, t)) == Some(s) && (a.maxTasks != 0 ==> a.count != a.maxTasks)
    ensures var b := Enqueue(a.(count := a.count + 1), s, w);
            Ordered(SlotsOf(b)) && ReportsFit(b) && OthersApart(SlotsOf(a), SlotsOf(b), t)
  {
    MemberFound(a.subs, s);
    assert Safe(ViewOf(a, s.id));
    EnqueueLaunched(a, t, s, w);
    FirstIsHead(a.subs, t);
    var p, q := SlotsOf(a), SlotsOf(Enqueue(a.(count := a.count + 1), s, w));
    StartsOrdered(p, q, s);
    forall u | u in p.submitted && u != t ensures Apart(p, q, u) { StartsApart(p, q, s, u); }
  }

  /** Nothing left to start, or the limit reached. */
  lemma IdleOrdered(p: Slots, t: Uuid)
    requires OrderedBut(p, t) && Idle(p, t) && (QueuedIds(p.subs, t) == [] || p.limit != 0)
    ensures Ordered(p)
  {
    forall u | u in p.submitted ensures InOrder(p, u) && Moving(p, u) {
      if u == t { IdleMoving(p, t); }
    }
  }

  lemma IdleMoving(p: Slots, t: Uuid)
    requires Idle(p, t) && (QueuedIds(p.subs, t) == [] || p.limit != 0)
    ensures InOrder(p, t) && Moving(p, t)
  {
  }

  lemma DispatchOrdered(a: Agent, t: Uuid, w: World)
    requires AllSafe(a) && ReportsFit(a) && OrderedBut(SlotsOf(a), t) && Idle(SlotsOf(a), t)
    ensures var b := Dispatch(a, Body(a.subs, t), w);
            Ordered(SlotsOf(b)) && ReportsFit(b) && OthersApart(SlotsOf(a), SlotsOf(b), t)
  {
    FirstIsHead(a.subs, t);
    var body := Body(a.subs, t);
    if FirstQueuing(body).None? || (a.maxTasks != 0 && a.count == a.maxTasks) {
      DispatchStops(a, body, w);
      IdleOrdered(SlotsOf(a), t);
      SameApart(SlotsOf(a), t);
    } else {
      RestedNotBusy(SlotsOf(a), t);
      DispatchGoes(a, body, w);
      LaunchOrdered(a, t, FirstQueuing(body).value, w);
    }
  }

  lemma DispatchStops(a: Agent, body: seq<SubTask>, w: World)
    requires Held(a, body)
    ensures Dispatch(a, body, w) == a
  {
  }

  lemma DispatchGoes(a: Agent, body: seq<SubTask>, w: World)
    requires !Held(a, body)
    ensures Dispatch(a, body, w) == Enqueue(a.(count := a.count + 1), FirstQueuing(body).value, w)
  {
  }

  lemma SameApart(p: Slots, t: Uuid)
    ensures OthersApart(p, p, t)
  {
    forall u | u in p.submitted && u != t ensures Apart(p, p, u) {}
  }

  lemma ScheduleIs(a: Agent, t: Uuid, w: World)
    requires Find(a.tasks, TaskId, t) == Some(Task(t, Running))
    ensures ScheduleById(a, t, w) == Dispatch(a, Body(a.subs, t), w)
  {
  }

  lemma NoneQueuing(p: Slots, t: Task)
    requires Ordered(p) && t in p.tasks
    ensures t.status != Queuing
  {
    var i :| 0 <= i < |p.tasks| && p.tasks[i] == t;
    FindUnique(p.tasks, TaskId, i);
    assert InOrder(p, t.id);
  }

  /** No task ever waits to be picked: it is scheduled by the call that stores it. */
  lemma NoneWaiting(a: Agent, w: World)
    requires Ordered(SlotsOf(a))
    ensures ScheduleNext(a, w) == a
  {
    forall t | t in a.tasks ensures t.status != Queuing { NoneQueuing(SlotsOf(a), t); }
  }

  // ---------------------------------------------------------------- consuming a report

  lemma LastStarted(p: Slots, t: Uuid, j: nat)
    requires Distinct(Keys(p.subs, SubId)) && t in p.submitted && InOrder(p, t) && j < |p.submitted[t]|
    requires p.submitted[t][j] !in p.consumed && Sub(p, p.submitted[t][j]).value.status != Queuing
    ensures j == Started(p, t) - 1 && Find(p.tasks, TaskId, t) == Some(Task(t, Running))
  {
    QueuedOrStarted(p, t, j);
    assert !DoneWith(p, p.submitted[t][j]);
  }

  lemma LastStartedIs(p: Slots, t: Uuid, id: Uuid)
    requires Distinct(Keys(p.subs, SubId)) && t in p.submitted && InOrder(p, t) && id in p.submitted[t]
    requires id !in p.consumed && Sub(p, id).value.status != Queuing
    ensures var k := Started(p, t);
            && 0 < k <= |p.submitted[t]| && p.submitted[t][k - 1] == id
            && Find(p.tasks, TaskId, t) == Some(Task(t, Running))
  {
    var j :| 0 <= j < |p.submitted[t]| && p.submitted[t][j] == id;
    LastStarted(p, t, j);
  }

  lemma ListedInOrder(p: Slots, id: Uuid)
    requires Ordered(p) && Sub(p, id).Some?
    ensures var t := Sub(p, id).value.parent;
            t in p.submitted && id in p.submitted[t] && InOrder(p, t)
  {
  }

  /** Among the sub-tasks of one task only the last started can be under way, and then the task runs. */
  lemma UnderWay(p: Slots, id: Uuid)
    requires Ordered(p) && id in Outstanding(p)
    ensures Sub(p, id).Some? && Sub(p, id).value.parent in p.submitted
    ensures var t := Sub(p, id).value.parent;
            var k := Started(p, t);
            && 0 < k <= |p.submitted[t]| && p.submitted[t][k - 1] == id
            && Find(p.tasks, TaskId, t) == Some(Task(t, Running))
  {
    OutstandingIs(p, id);
    ListedInOrder(p, id);
    LastStartedIs(p, Sub(p, id).value.parent, id);
  }

  /** The report of one sub-task is consumed and its slot freed; its task may change. */
  ghost predicate Ends(p: Slots, q: Slots, id: Uuid) {
    && Sub(p, id).Some? && Sub(q, id).Some?
    && q == p.(subs := q.subs, tasks := q.tasks, consumed := p.consumed + {id}, taken := p.taken + [id],
               count := p.count - 1)
    && Distinct(Keys(q.subs, SubId)) && Distinct(Keys(q.tasks, TaskId))
    && (forall t :: QueuedIds(q.subs, t) == QueuedIds(p.subs, t))
    && (forall x :: x != id ==> SameSub(Sub(p, x), Sub(q, x), x in p.consumed))
    && Sub(q, id).value.parent == Sub(p, id).value.parent && Sub(q, id).value.status != Queuing
    && forall t :: t != Sub(p, id).value.parent ==> Find(q.tasks, TaskId, t) == Find(p.tasks, TaskId, t)
  }

  lemma EndsDispatched(p: Slots, q: Slots, id: Uuid)
    requires Distinct(Keys(p.subs, SubId)) && Ends(p, q, id) && Sub(p, id).value.status != Queuing
    ensures Dispatched(q.subs) == Dispatched(p.subs)
  {
    forall x ensures x in Dispatched(q.subs) <==> x in Dispatched(p.subs) {
      DispatchedIs(p.subs, x);
      DispatchedIs(q.subs, x);
      if x != id { assert SameSub(Sub(p, x), Sub(q, x), x in p.consumed); }
    }
  }

  lemma EndsCounted(p: Slots, q: Slots, id: Uuid)
    requires Distinct(Keys(p.subs, SubId)) && Counted(p) && Ends(p, q, id) && Sub(p, id).value.status != Queuing
    ensures Counted(q)
  {
    EndsDispatched(p, q, id);
    forall x | x in q.consumed ensures Sub(q, x).Some? && Sub(q, x).value.status != Queuing {
      if x != id { assert SameSub(Sub(p, x), Sub(q, x), x in p.consumed); }
    }
  }

  lemma EndsListed(p: Slots, q: Slots, id: Uuid)
    requires Listed(p) && Ends(p, q, id) && Sub(p, id).value.parent in p.submitted
    ensures Listed(q)
  {
    forall x | Sub(q, x).Some?
      ensures Sub(q, x).value.parent in q.submitted && x in q.submitted[Sub(q, x).value.parent]
    {
      if x != id { assert SameSub(Sub(p, x), Sub(q, x), x in p.consumed); }
      assert Sub(p, x).Some?;
    }
    forall t | Find(q.tasks, TaskId, t).Some? ensures t in q.submitted {
      assert t == Sub(p, id).value.parent || Find(p.tasks, TaskId, t).Some?;
    }
  }

  lemma EndsApart(p: Slots, q: Slots, id: Uuid, u: Uuid)
    requires Ends(p, q, id) && u in p.submitted && InOrder(p, u) && u != Sub(p, id).value.parent
    ensures Apart(p, q, u)
  {
    assert QueuedIds(q.subs, u) == QueuedIds(p.subs, u);
    forall x | x in p.submitted[u]
      ensures SameSub(Sub(p, x), Sub(q, x), x in p.consumed) && (x in p.consumed <==> x in q.consumed)
    {
      assert x != id;
    }
  }

  lemma EndsStaggered(p: Slots, q: Slots, id: Uuid, t: Uuid)
    requires Ends(p, q, id) && t in p.submitted && Staggered(p, t) && Sub(p, id).value.parent == t
    requires 0 < Started(p, t) <= |p.submitted[t]| && p.submitted[t][Started(p, t) - 1] == id
    ensures Staggered(q, t)
  {
    var l := p.submitted[t];
    assert QueuedIds(q.subs, t) == QueuedIds(p.subs, t);
    forall i | 0 <= i < |l| && i != Started(p, t) - 1
      ensures SameSub(Sub(p, l[i]), Sub(q, l[i]), l[i] in p.consumed) && (DoneWith(p, l[i]) ==> DoneWith(q, l[i]))
    {
      DistinctAny(l, i, Started(p, t) - 1);
    }
  }

  /** The last started sub-task of its task is the one that ended. */
  lemma EndsLast(p: Slots, q: Slots, id: Uuid, t: Uuid)
    requires Ends(p, q, id) && t in p.submitted && 0 < Started(p, t) <= |p.submitted[t]|
    requires p.submitted[t][Started(p, t) - 1] == id
    ensures Started(q, t) == Started(p, t) && q.submitted[t][Started(q, t) - 1] == id
  {
    assert QueuedIds(q.subs, t) == QueuedIds(p.subs, t);
  }

  lemma UnderWayStaggered(p: Slots, id: Uuid)
    requires Ordered(p) && id in Outstanding(p)
    ensures Sub(p, id).Some? && Sub(p, id).value.parent in p.submitted && Staggered(p, Sub(p, id).value.parent)
  {
    UnderWay(p, id);
    assert InOrder(p, Sub(p, id).value.parent);
  }

  /** Its task is still staggered, with the sub-task that ended the last one started. */
  lemma EndsOwn(p: Slots, q: Slots, id: Uuid)
    requires Ordered(p) && id in Outstanding(p) && Ends(p, q, id)
    ensures Sub(p, id).value.parent in p.submitted
    ensures var t := Sub(p, id).value.parent;
            var k := Started(q, t);
            && Staggered(q, t) && 0 < k && q.submitted[t][k - 1] == id
  {
    UnderWay(p, id);
    UnderWayStaggered(p, id);
    var t := Sub(p, id).value.parent;
    EndsStaggered(p, q, id, t);
    EndsLast(p, q, id, t);
  }

  lemma EndsOrdered(p: Slots, q: Slots, id: Uuid)
    requires Ordered(p) && id in Outstanding(p) && Ends(p, q, id)
    ensures Sub(p, id).value.parent in p.submitted
    ensures var t := Sub(p, id).value.parent;
            OrderedBut(q, t) && OthersApart(p, q, t)
  {
    UnderWay(p, id);
    OutstandingIs(p, id);
    EndsListed(p, q, id);
    EndsCounted(p, q, id);
    var t := Sub(p, id).value.parent;
    forall u | u in p.submitted && u != t ensures Apart(p, q, u) && InOrder(q, u) && Moving(q, u) {
      EndsApart(p, q, id, u);
      SameInOrder(p, q, u);
    }
  }

  /** What remains in the queue when a report is taken: none of a sub-task it completed, and none that
      completes its sub-task. */
  lemma RemainingOther(a: Agent, i: nat, r: Report)
    requires ReportsFit(a) && i < |a.reports| && r in RemoveAt(a.reports, i)
    ensures r in a.reports && (r.completed || a.reports[i].completed ==> r.sub != a.reports[i].sub)
  {
    var left := RemoveAt(a.reports, i);
    var j :| 0 <= j < |left| && left[j] == r;
    if j < i { assert a.reports[j] == r; } else { assert a.reports[j + 1] == r; }
  }

  /** Waiting reports of which one is a completed one are of different sub-tasks. */
  ghost predicate ApartWaiting(reports: seq<Report>) {
    forall j, k :: 0 <= j < k < |reports| && (reports[j].completed || reports[k].completed) ==>
      reports[j].sub != reports[k].sub
  }

  lemma RemainingApart(reports: seq<Report>, i: nat)
    requires i < |reports| && ApartWaiting(reports)
    ensures ApartWaiting(RemoveAt(reports, i))
  {
    var left := RemoveAt(reports, i);
    forall j, k | 0 <= j < k < |left| && (left[j].completed || left[k].completed) ensures left[j].sub != left[k].sub {
      var j0, k0 := if j < i then j else j + 1, if k < i then k else k + 1;
      assert left[j] == reports[j0] && left[k] == reports[k0];
    }
  }

  lemma TakenFits(a: Agent, i: nat)
    requires ReportsFit(a) && i < |a.reports|
    ensures ReportsFit(Taken(a, i))
  {
    var b := Taken(a, i);
    assert a.reports[i] in a.reports;
    forall r | r in b.reports ensures r in a.reports && (r.completed ==> r.sub != a.reports[i].sub) {
      RemainingOther(a, i, r);
    }
    forall id ensures Sent(b, id) == Sent(a, id) {}
    RemainingApart(a.reports, i);
  }

  /** A report of a sub-task none was consumed of before: it holds a slot. */
  lemma ReportHoldsSlot(a: Agent, r: Report)
    requires AllSafe(a) && ReportsFit(a) && r in a.reports && r.sub !in a.past.consumed
    ensures r.sub in Outstanding(SlotsOf(a))
  {
    assert Safe(ViewOf(a, r.sub));
    assert Sent(a, r.sub) > 0;
    OutstandingIs(SlotsOf(a), r.sub);
  }

  lemma SetTaskFinds(a: Agent, t: Task)
    requires Distinct(Keys(a.tasks, TaskId)) && Find(a.tasks, TaskId, t.id).Some?
    ensures var b := SetTask(a, t);
            && Distinct(Keys(b.tasks, TaskId)) && Find(b.tasks, TaskId, t.id) == Some(t)
            && forall u :: u != t.id ==> Find(b.tasks, TaskId, u) == Find(a.tasks, TaskId, u)
  {
    MoveBackDistinct(a.tasks, TaskId, t);
    forall u ensures Find(SetTask(a, t).tasks, TaskId, u) == if u == t.id then Some(t) else Find(a.tasks, TaskId, u) {
      MoveBackFinds(a.tasks, TaskId, t, u);
    }
  }

  /** The state once a failed report was taken: the slot freed and the task failed. */
  function TaskFailed(a: Agent, i: nat, t: Uuid): Agent
    requires i < |a.reports|
  {
    SetTask(Taken(a, i).(count := a.count - 1), Task(t, Status.Failed))
  }

  /** The sub-task a report is of, and its task. */
  lemma ReportUnderWay(a: Agent, i: nat)
    requires AllSafe(a) && ReportsFit(a) && Ordered(SlotsOf(a)) && i < |a.reports|
    requires a.reports[i].sub !in a.past.consumed
    ensures a.reports[i].sub in Outstanding(SlotsOf(a))
    ensures var s := Find(a.subs, SubId, a.reports[i].sub);
            && s.Some? && s.value.status != Queuing && a.reports[i].sub !in a.past.consumed
            && Find(a.tasks, TaskId, s.value.parent) == Some(Task(s.value.parent, Running))
  {
    ReportHoldsSlot(a, a.reports[i]);
    UnderWay(SlotsOf(a), a.reports[i].sub);
    OutstandingIs(SlotsOf(a), a.reports[i].sub);
  }

  lemma TaskEnds(p: Slots, tasks: seq<Task>, id: Uuid)
    requires Distinct(Keys(p.subs, SubId)) && Sub(p, id).Some? && Sub(p, id).value.status != Queuing
    requires Distinct(Keys(tasks, TaskId))
    requires forall t :: t != Sub(p, id).value.parent ==> Find(tasks, TaskId, t) == Find(p.tasks, TaskId, t)
    ensures var q := p.(tasks := tasks, consumed := p.consumed + {id}, taken := p.taken + [id], count := p.count - 1);
            Ends(p, q, id)
  {
  }

  lemma TaskFailedEnds(a: Agent, i: nat)
    requires Listed(SlotsOf(a)) && i < |a.reports| && Find(a.subs, SubId, a.reports[i].sub).Some?
    requires var s := Find(a.subs, SubId, a.reports[i].sub).value;
             s.status != Queuing && Find(a.tasks, TaskId, s.parent).Some?
    ensures var t := Find(a.subs, SubId, a.reports[i].sub).value.parent;
            var q := SlotsOf(TaskFailed(a, i, t));
            Ends(SlotsOf(a), q, a.reports[i].sub) && Find(q.tasks, TaskId, t) == Some(Task(t, Status.Failed))
  {
    var t := Find(a.subs, SubId, a.reports[i].sub).value.parent;
    SetTaskFinds(a, Task(t, Status.Failed));
    TaskEnds(SlotsOf(a), MoveBack(a.tasks, TaskId, Task(t, Status.Failed)), a.reports[i].sub);
  }

  lemma TaskFailedOrdered(p: Slots, q: Slots, id: Uuid)
    requires Ordered(p) && id in Outstanding(p) && Ends(p, q, id)
    requires var t := Sub(p, id).value.parent; Find(q.tasks, TaskId, t) == Some(Task(t, Status.Failed))
    ensures Ordered(q) && OthersApart(p, q, Sub(p, id).value.parent)
  {
    EndsOrdered(p, q, id);
    EndsOwn(p, q, id);
    var t := Sub(p, id).value.parent;
    assert StatusFits(q, t) && Moving(q, t);
  }

  lemma TaskFailedFits(a: Agent, i: nat, t: Uuid)
    requires ReportsFit(a) && i < |a.reports|
    ensures ReportsFit(TaskFailed(a, i, t))
  {
    TakenFits(a, i);
    SameFits(Taken(a, i), TaskFailed(a, i, t));
  }

  lemma FailedTaskIs(a: Agent, i: nat)
    requires i < |a.reports| && Find(a.subs, SubId, a.reports[i].sub).Some?
    requires Find(a.tasks, TaskId, Find(a.subs, SubId, a.reports[i].sub).value.parent).Some?
    ensures var t := Find(a.subs, SubId, a.reports[i].sub).value.parent;
            SetTask(Taken(a, i).(count := Taken(a, i).count - 1),
                    Find(a.tasks, TaskId, t).value.(status := Status.Failed)) == TaskFailed(a, i, t)
  {
  }

  lemma FailIs(a: Agent, i: nat, w: World)
    requires i < |a.reports| && Find(a.subs, SubId, a.reports[i].sub).Some?
    requires Find(a.tasks, TaskId, Find(a.subs, SubId, a.reports[i].sub).value.parent).Some?
    ensures FailSubTask(Taken(a, i), a.reports[i].sub, w)
            == ScheduleNext(TaskFailed(a, i, Find(a.subs, SubId, a.reports[i].sub).value.parent), w)
  {
    FailSubTaskIs(Taken(a, i), a.reports[i].sub, w);
    FailedTaskIs(a, i);
  }

  /** The task of a sub-task whose failed report was consumed has failed. */
  lemma FailedForGood(p: Slots, id: Uuid)
    requires Ordered(p) && id in p.consumed && Sub(p, id).Some? && Sub(p, id).value.status == Status.Failed
    ensures var t := Sub(p, id).value.parent;
            t in p.submitted && Find(p.tasks, TaskId, t) == Some(Task(t, Status.Failed))
  {
    ListedInOrder(p, id);
    FailedInOrder(p, Sub(p, id).value.parent, id);
  }

  lemma FailedInOrder(p: Slots, t: Uuid, id: Uuid)
    requires Distinct(Keys(p.subs, SubId)) && t in p.submitted && InOrder(p, t) && id in p.submitted[t]
    requires id in p.consumed && Sub(p, id).value.status == Status.Failed
    ensures Find(p.tasks, TaskId, t) == Some(Task(t, Status.Failed))
  {
    var j :| 0 <= j < |p.submitted[t]| && p.submitted[t][j] == id;
    QueuedOrStarted(p, t, j);
    assert !DoneWith(p, p.submitted[t][j]);
  }

  /** A second failed report of one sub-task takes the counter down again and changes nothing else. */
  lemma EndsAgain(p: Slots, q: Slots, id: Uuid)
    requires Ordered(p) && Ends(p, q, id) && id in p.consumed && q.subs == p.subs
    requires forall t :: Find(q.tasks, TaskId, t) == Find(p.tasks, TaskId, t)
    ensures Ordered(q) && forall u :: u in p.submitted ==> Apart(p, q, u)
  {
    assert q.consumed == p.consumed;
    EndsCounted(p, q, id);
    ListedInOrder(p, id);
    EndsListed(p, q, id);
    forall u | u in p.submitted ensures Apart(p, q, u) && InOrder(q, u) && Moving(q, u) {
      forall x ensures Sub(q, x) == Sub(p, x) {}
      SameInOrder(p, q, u);
    }
  }

  lemma FailedReportStatus(a: Agent, r: Report)
    requires AllSafe(a) && r in a.reports && !r.completed
    ensures Find(a.subs, SubId, r.sub).Some? && Find(a.subs, SubId, r.sub).value.status == Status.Failed
  {
    assert Safe(ViewOf(a, r.sub));
    assert SentFor(a.past.sent, r.sub, false) > 0;
  }

  lemma FailedAgain(a: Agent, i: nat)
    requires AllSafe(a) && ReportsFit(a) && Ordered(SlotsOf(a)) && i < |a.reports|
    requires !a.reports[i].completed && a.reports[i].sub in a.past.consumed
    ensures var s := Find(a.subs, SubId, a.reports[i].sub);
            && s.Some? && Find(a.tasks, TaskId, s.value.parent).Some?
            && var b := TaskFailed(a, i, s.value.parent);
            Ordered(SlotsOf(b)) && OthersApart(SlotsOf(a), SlotsOf(b), s.value.parent)
  {
    FailedReportStatus(a, a.reports[i]);
    FailedForGood(SlotsOf(a), a.reports[i].sub);
    TaskFailedEnds(a, i);
    EndsAgain(SlotsOf(a), SlotsOf(TaskFailed(a, i, Find(a.subs, SubId, a.reports[i].sub).value.parent)),
              a.reports[i].sub);
  }

  lemma FailedFirst(a: Agent, i: nat)
    requires AllSafe(a) && ReportsFit(a) && Ordered(SlotsOf(a)) && i < |a.reports|
    requires a.reports[i].sub !in a.past.consumed
    ensures var s := Find(a.subs, SubId, a.reports[i].sub);
            && s.Some? && Find(a.tasks, TaskId, s.value.parent).Some?
            && var b := TaskFailed(a, i, s.value.parent);
            Ordered(SlotsOf(b)) && OthersApart(SlotsOf(a), SlotsOf(b), s.value.parent)
  {
    ReportUnderWay(a, i);
    TaskFailedEnds(a, i);
    var b := TaskFailed(a, i, Find(a.subs, SubId, a.reports[i].sub).value.parent);
    TaskFailedOrdered(SlotsOf(a), SlotsOf(b), a.reports[i].sub);
  }

  /** A failed report, the first of its sub-task or not. */
  lemma FailConsumed(a: Agent, i: nat, w: World)
    requires AllSafe(a) && ReportsFit(a) && Ordered(SlotsOf(a)) && i < |a.reports| && !a.reports[i].completed
    ensures Sub(SlotsOf(a), a.reports[i].sub).Some?
    ensures var t := Sub(SlotsOf(a), a.reports[i].sub).value.parent;
            var b := FailSubTask(Taken(a, i), a.reports[i].sub, w);
            b == TaskFailed(a, i, t) && Ordered(SlotsOf(b)) && ReportsFit(b) && OthersApart(SlotsOf(a), SlotsOf(b), t)
  {
    if a.reports[i].sub in a.past.consumed { FailedAgain(a, i); } else { FailedFirst(a, i); }
    TaskFailedFits(a, i, Find(a.subs, SubId, a.reports[i].sub).value.parent);
    FailIs(a, i, w);
    NoneWaiting(TaskFailed(a, i, Find(a.subs, SubId, a.reports[i].sub).value.parent), w);
  }

  /** A sub-task written back as completed, its report consumed and its slot freed. */
  lemma SubEnds(p: Slots, s: SubTask)
    requires Distinct(Keys(p.subs, SubId)) && Distinct(Keys(p.tasks, TaskId))
    requires Sub(p, s.id) == Some(s) && s.status != Queuing && s.id !in p.consumed
    ensures var q := p.(subs := MoveBack(p.subs, SubId, s.(status := Completed)), consumed := p.consumed + {s.id},
                        taken := p.taken + [s.id], count := p.count - 1);
            Ends(p, q, s.id) && Sub(q, s.id) == Some(s.(status := Completed))
  {
    var r := s.(status := Completed);
    SetMoves(p, r);
    MoveBackFinds(p.subs, SubId, r, s.id);
    MovedEnds(p, MoveBack(p.subs, SubId, r), s, r);
  }

  lemma MovedEnds(p: Slots, subs: seq<SubTask>, s: SubTask, r: SubTask)
    requires Moves(p, p.(subs := subs)) && Distinct(Keys(p.tasks, TaskId)) && Sub(p, s.id) == Some(s)
    requires Find(subs, SubId, s.id) == Some(r) && r.parent == s.parent && r.status != Queuing
    ensures Ends(p, p.(subs := subs, consumed := p.consumed + {s.id}, taken := p.taken + [s.id], count := p.count - 1),
                 s.id)
  {
    var moved := p.(subs := subs);
    forall x ensures SameSub(Sub(p, x), Find(subs, SubId, x), x in p.consumed) {
      assert SameSub(Sub(p, x), Sub(moved, x), x in p.consumed);
    }
  }

  lemma FreedEnds(a: Agent, i: nat)
    requires Distinct(Keys(a.subs, SubId)) && Distinct(Keys(a.tasks, TaskId)) && i < |a.reports|
    requires var s := Find(a.subs, SubId, a.reports[i].sub);
             s.Some? && s.value.status != Queuing && s.value.id !in a.past.consumed
    ensures var s := Find(a.subs, SubId, a.reports[i].sub).value;
            var q := SlotsOf(Freed(Taken(a, i), s));
            Ends(SlotsOf(a), q, s.id) && Sub(q, s.id) == Some(s.(status := Completed))
  {
    SubEnds(SlotsOf(a), Find(a.subs, SubId, a.reports[i].sub).value);
  }

  lemma FreedFits(a: Agent, i: nat, s: SubTask)
    requires ReportsFit(a) && i < |a.reports|
    ensures ReportsFit(Freed(Taken(a, i), s))
  {
    TakenFits(a, i);
    SameFits(Taken(a, i), Freed(Taken(a, i), s));
  }

  /** What is known once the slot is free, before the task goes on. */
  lemma FreedRests(a: Agent, i: nat)
    requires AllSafe(a) && ReportsFit(a) && Ordered(SlotsOf(a)) && i < |a.reports| && a.reports[i].completed
    ensures Find(a.subs, SubId, a.reports[i].sub).Some?
    ensures var s := Find(a.subs, SubId, a.reports[i].sub).value;
            var t := s.parent;
            var q := SlotsOf(Freed(Taken(a, i), s));
            && OrderedBut(q, t) && t in q.submitted && Rested(q, t) && Started(q, t) > 0
            && Find(q.tasks, TaskId, t) == Some(Task(t, Running)) && OthersApart(SlotsOf(a), q, t)
  {
    assert a.reports[i] in a.reports;
    ReportUnderWay(a, i);
    FreedEnds(a, i);
    var p := SlotsOf(a);
    var id := a.reports[i].sub;
    var q := SlotsOf(Freed(Taken(a, i), Find(a.subs, SubId, id).value));
    EndsOrdered(p, q, id);
    EndsOwn(p, q, id);
  }

  lemma ApartTwice(p: Slots, q: Slots, r: Slots, t: Uuid)
    requires p.submitted.Keys <= q.submitted.Keys && OthersApart(p, q, t) && OthersApart(q, r, t)
    ensures OthersApart(p, r, t)
  {
    forall u | u in p.submitted && u != t ensures Apart(p, r, u) {
      assert Apart(p, q, u) && Apart(q, r, u);
      forall id | id in p.submitted[u]
        ensures SameSub(Sub(p, id), Sub(r, id), id in p.consumed) && (id in p.consumed <==> id in r.consumed)
      {
        assert SameSub(Sub(p, id), Sub(q, id), id in p.consumed) && SameSub(Sub(q, id), Sub(r, id), id in q.consumed);
      }
    }
  }

  /** The task is over: every sub-task it has is completed. */
  lemma TaskCompletedOwn(p: Slots, q: Slots, t: Uuid)
    requires t in p.submitted && Rested(p, t) && Started(p, t) > 0 && QueuedIds(p.subs, t) == []
    requires q == p.(tasks := q.tasks) && Find(q.tasks, TaskId, t) == Some(Task(t, Completed))
    ensures InOrder(q, t) && Moving(q, t)
  {
    forall id ensures Sub(q, id) == Sub(p, id) {}
    assert Staggered(q, t);
  }

  lemma TaskSetCounted(p: Slots, q: Slots, t: Uuid)
    requires Listed(p) && Counted(p) && t in p.submitted
    requires q == p.(tasks := q.tasks) && Distinct(Keys(q.tasks, TaskId))
    requires forall u :: u != t ==> Find(q.tasks, TaskId, u) == Find(p.tasks, TaskId, u)
    ensures Listed(q) && Counted(q) && forall id :: Sub(q, id) == Sub(p, id)
  {
    forall id ensures Sub(q, id) == Sub(p, id) {}
  }

  lemma TaskCompletedOrdered(p: Slots, q: Slots, t: Uuid)
    requires OrderedBut(p, t) && t in p.submitted && Rested(p, t) && Started(p, t) > 0 && QueuedIds(p.subs, t) == []
    requires q == p.(tasks := q.tasks) && Distinct(Keys(q.tasks, TaskId))
    requires Find(p.tasks, TaskId, t).Some? && Find(q.tasks, TaskId, t) == Some(Task(t, Completed))
    requires forall u :: u != t ==> Find(q.tasks, TaskId, u) == Find(p.tasks, TaskId, u)
    ensures Ordered(q) && OthersApart(p, q, t)
  {
    TaskCompletedOwn(p, q, t);
    TaskSetCounted(p, q, t);
    forall u | u in p.submitted && u != t ensures Apart(p, q, u) && InOrder(q, u) && Moving(q, u) {
      TaskSetOther(p, q, u);
    }
  }

  /** A task whose own record is not touched. */
  lemma TaskSetOther(p: Slots, q: Slots, u: Uuid)
    requires u in p.submitted && InOrder(p, u) && Moving(p, u)
    requires q == p.(tasks := q.tasks) && Find(q.tasks, TaskId, u) == Find(p.tasks, TaskId, u)
    ensures Apart(p, q, u) && InOrder(q, u) && Moving(q, u)
  {
    SameInOrder(p, q, u);
  }

  lemma LastSet(a: Agent, t: Uuid)
    requires OrderedBut(SlotsOf(a), t) && t in a.past.submitted && Rested(SlotsOf(a), t) && Started(SlotsOf(a), t) > 0
    requires Find(a.tasks, TaskId, t).Some? && QueuedIds(a.subs, t) == [] && ReportsFit(a)
    ensures var b := SetTask(a, Task(t, Completed));
            Ordered(SlotsOf(b)) && ReportsFit(b) && OthersApart(SlotsOf(a), SlotsOf(b), t)
  {
    var b := SetTask(a, Task(t, Completed));
    SetTaskFinds(a, Task(t, Completed));
    TaskCompletedOrdered(SlotsOf(a), SlotsOf(b), t);
    SameFits(a, b);
  }

  lemma LastCompleted(a: Agent, t: Uuid, w: World)
    requires OrderedBut(SlotsOf(a), t) && t in a.past.submitted && Rested(SlotsOf(a), t) && Started(SlotsOf(a), t) > 0
    requires Find(a.tasks, TaskId, t).Some? && QueuedIds(a.subs, t) == [] && ReportsFit(a)
    ensures var b := ScheduleNext(SetTask(a, Task(t, Completed)), w);
            Ordered(SlotsOf(b)) && ReportsFit(b) && OthersApart(SlotsOf(a), SlotsOf(b), t)
  {
    LastSet(a, t);
    NoneWaiting(SetTask(a, Task(t, Completed)), w);
  }

  lemma ProceedIs(a: Agent, t: Uuid, w: World)
    requires Listed(SlotsOf(a)) && t in a.past.submitted && Rested(SlotsOf(a), t)
    requires Find(a.tasks, TaskId, t) == Some(Task(t, Running))
    ensures Proceed(a, t, w) ==
            if QueuedIds(a.subs, t) == [] then ScheduleNext(SetTask(a, Task(t, Completed)), w)
            else Dispatch(a, Body(a.subs, t), w)
  {
    AllCompletedIs(SlotsOf(a), t);
    ScheduleIs(a, t, w);
  }

  lemma RestedIsIdle(p: Slots, t: Uuid)
    requires t in p.submitted && Rested(p, t) && QueuedIds(p.subs, t) != []
    requires Find(p.tasks, TaskId, t) == Some(Task(t, Running))
    ensures Idle(p, t)
  {
  }

  lemma ProceedOrdered(a: Agent, t: Uuid, w: World)
    requires AllSafe(a) && ReportsFit(a) && OrderedBut(SlotsOf(a), t) && t in a.past.submitted
    requires Rested(SlotsOf(a), t) && Started(SlotsOf(a), t) > 0 && Find(a.tasks, TaskId, t) == Some(Task(t, Running))
    ensures var b := Proceed(a, t, w);
            Ordered(SlotsOf(b)) && ReportsFit(b) && OthersApart(SlotsOf(a), SlotsOf(b), t)
  {
    ProceedIs(a, t, w);
    if QueuedIds(a.subs, t) == [] {
      LastCompleted(a, t, w);
    } else {
      RestedIsIdle(SlotsOf(a), t);
      DispatchOrdered(a, t, w);
    }
  }

  lemma CompleteConsumed(a: Agent, i: nat, w: World)
    requires AllSafe(a) && ReportsFit(a) && Ordered(SlotsOf(a)) && i < |a.reports| && a.reports[i].completed
    ensures var b := CompleteSubTask(Taken(a, i), a.reports[i].sub, w);
            && Ordered(SlotsOf(b)) && ReportsFit(b)
            && Sub(SlotsOf(a), a.reports[i].sub).Some?
            && OthersApart(SlotsOf(a), SlotsOf(b), Sub(SlotsOf(a), a.reports[i].sub).value.parent)
  {
    FreedRests(a, i);
    var s := Find(a.subs, SubId, a.reports[i].sub).value;
    FreedFits(a, i, s);
    var freed := Freed(Taken(a, i), s);
    CompleteSubTaskIs(Taken(a, i), s.id, w);
    TakenSafe(a, i);
    ProceedOrdered(freed, s.parent, w);
    ApartTwice(SlotsOf(a), SlotsOf(freed), SlotsOf(Proceed(freed, s.parent, w)), s.parent);
  }

  lemma TakenSafe(a: Agent, i: nat)
    requires AllSafe(a) && i < |a.reports| && a.reports[i].completed && Find(a.subs, SubId, a.reports[i].sub).Some?
    ensures AllSafe(Freed(Taken(a, i), Find(a.subs, SubId, a.reports[i].sub).value))
  {
    assert a.reports[i] in a.reports;
    SameViews(a, Taken(a, i));
    FreedSafe(Taken(a, i), Find(a.subs, SubId, a.reports[i].sub).value);
  }
}
