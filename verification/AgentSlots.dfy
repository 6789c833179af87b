/** Slot accounting and order: how many sub-tasks hold a slot, and in which order the sub-tasks of a
    task are started. */
module AgentSlots {
  import opened Basics
  import opened AgentModel
  import opened AgentStaging

  /** The part of the state that slots and order depend on. */
  datatype Slots = Slots(tasks: seq<Task>, subs: seq<SubTask>, count: int, limit: nat,
                         consumed: set<Uuid>, taken: seq<Uuid>, submitted: map<Uuid, seq<Uuid>>)

  function SlotsOf(a: Agent): Slots {
    Slots(a.tasks, a.subs, a.count, a.maxTasks, a.past.consumed, a.past.taken, a.past.submitted)
  }

  /** The queued sub-tasks of a task, in repository order. */
  function QueuedIds(subs: seq<SubTask>, task: Uuid): seq<Uuid> {
    if subs == [] then []
    else (if subs[0].parent == task && subs[0].status == Queuing then [subs[0].id] else []) + QueuedIds(subs[1..], task)
  }

  function Sub(p: Slots, id: Uuid): Option<SubTask> { Find(p.subs, SubId, id) }

  /** The sub-tasks that were dispatched and whose report was not consumed yet. */
  function Outstanding(p: Slots): (ids: set<Uuid>)
    ensures forall id :: id in ids <==>
              exists s :: s in p.subs && s.id == id && s.status != Queuing && id !in p.consumed
  {
    set s | s in p.subs && s.status != Queuing && s.id !in p.consumed :: s.id
  }

  /** The sub-tasks that were ever dispatched. */
  function Dispatched(subs: seq<SubTask>): (ids: set<Uuid>)
    ensures forall id :: id in ids <==> exists s :: s in subs && s.id == id && s.status != Queuing
  {
    set s | s in subs && s.status != Queuing :: s.id
  }

  lemma DispatchedIs(subs: seq<SubTask>, id: Uuid)
    requires Distinct(Keys(subs, SubId))
    ensures id in Dispatched(subs) <==> Find(subs, SubId, id).Some? && Find(subs, SubId, id).value.status != Queuing
  {
    forall s | s in subs && s.id == id ensures Find(subs, SubId, id) == Some(s) { MemberFound(subs, s); }
  }

  lemma OutstandingIs(p: Slots, id: Uuid)
    requires Distinct(Keys(p.subs, SubId))
    ensures id in Outstanding(p) <==> Sub(p, id).Some? && Sub(p, id).value.status != Queuing && id !in p.consumed
  {
    forall s | s in p.subs && s.id == id ensures Sub(p, id) == Some(s) { MemberFound(p.subs, s); }
  }

  // ---------------------------------------------------------------- the invariant

  /** How many sub-tasks of a task were started. */
  function Started(p: Slots, t: Uuid): int
    requires t in p.submitted
  {
    |p.submitted[t]| - |QueuedIds(p.subs, t)|
  }

  ghost predicate DoneWith(p: Slots, id: Uuid) {
    id in p.consumed && Sub(p, id).Some? && Sub(p, id).value.status == Completed
  }

  /** The queued sub-tasks of a task are the tail of the submitted list, and all but the last of those
      started are over. */
  ghost predicate Staggered(p: Slots, t: Uuid)
    requires t in p.submitted
  {
    var l := p.submitted[t];
    var k := Started(p, t);
    && Distinct(l) && 0 <= k && QueuedIds(p.subs, t) == l[k..]
    && (forall i :: 0 <= i < |l| ==> Sub(p, l[i]).Some? && Sub(p, l[i]).value.parent == t)
    && (forall i :: 0 <= i < k ==> Sub(p, l[i]).value.status != Queuing)
    && (forall i :: 0 <= i < k - 1 ==> DoneWith(p, l[i]))
  }

  /** The status of a task says how far it is. */
  ghost predicate StatusFits(p: Slots, t: Uuid)
    requires t in p.submitted && Staggered(p, t)
  {
    var l := p.submitted[t];
    var k := Started(p, t);
    var task := Find(p.tasks, TaskId, t);
    && task.Some?
    && (task.value.status == Running ==> k == 0 || l[k - 1] !in p.consumed || (DoneWith(p, l[k - 1]) && k < |l|))
    && (task.value.status == Completed ==> k == |l| > 0 && DoneWith(p, l[k - 1]))
    && (task.value.status == Status.Failed ==> k > 0 && l[k - 1] in p.consumed)
    && task.value.status in {Running, Completed, Status.Failed}
  }

  ghost predicate InOrder(p: Slots, t: Uuid)
    requires t in p.submitted
  {
    Staggered(p, t) && StatusFits(p, t)
  }

  /** Without a limit a running task always has a sub-task under way. */
  ghost predicate Moving(p: Slots, t: Uuid)
    requires t in p.submitted
  {
    var l := p.submitted[t];
    var k := Started(p, t);
    var task := Find(p.tasks, TaskId, t);
    p.limit == 0 && l != [] && task.Some? && task.value.status == Running ==> 0 < k <= |l| && l[k - 1] !in p.consumed
  }

  /** Every sub-task is in the list its task was submitted with. */
  ghost predicate Listed(p: Slots) {
    && Distinct(Keys(p.subs, SubId)) && Distinct(Keys(p.tasks, TaskId))
    && (forall t :: Find(p.tasks, TaskId, t).Some? ==> t in p.submitted)
    && forall id :: Sub(p, id).Some? ==>
         Sub(p, id).value.parent in p.submitted && id in p.submitted[Sub(p, id).value.parent]
  }

  /** The counter went up once for every sub-task dispatched and down once for every report consumed. */
  ghost predicate Counted(p: Slots) {
    && p.count == |Dispatched(p.subs)| - |p.taken| && (p.limit != 0 ==> p.count <= p.limit)
    && (forall id :: id in p.consumed <==> id in p.taken)
    && forall id :: id in p.consumed ==> Sub(p, id).Some? && Sub(p, id).value.status != Queuing
  }

  ghost predicate Ordered(p: Slots) {
    Listed(p) && Counted(p) && forall t :: t in p.submitted ==> InOrder(p, t) && Moving(p, t)
  }

  // ---------------------------------------------------------------- moving a record

  lemma {:induction false} QueuedConcat(a: seq<SubTask>, b: seq<SubTask>, t: Uuid)
    ensures QueuedIds(a + b, t) == QueuedIds(a, t) + QueuedIds(b, t)
  {
    if a == [] {
      assert a + b == b;
    } else {
      assert (a + b)[1..] == a[1..] + b;
      QueuedConcat(a[1..], b, t);
    }
  }

  function QueuedHere(s: SubTask, t: Uuid): seq<Uuid> {
    if s.parent == t && s.status == Queuing then [s.id] else []
  }

  /** The queued sub-tasks around the record at `i`. */
  lemma QueuedSplit(subs: seq<SubTask>, i: nat, t: Uuid)
    requires i < |subs|
    ensures QueuedIds(subs, t) == QueuedIds(subs[..i], t) + QueuedHere(subs[i], t) + QueuedIds(subs[i + 1..], t)
  {
    assert subs == subs[..i] + ([subs[i]] + subs[i + 1..]);
    QueuedConcat(subs[..i], [subs[i]] + subs[i + 1..], t);
    QueuedConcat([subs[i]], subs[i + 1..], t);
  }

  /** The queued sub-tasks after that record was replaced by one at the back. */
  lemma QueuedMoved(subs: seq<SubTask>, i: nat, s: SubTask, t: Uuid)
    requires i < |subs|
    ensures QueuedIds(RemoveAt(subs, i) + [s], t) ==
            QueuedIds(subs[..i], t) + QueuedIds(subs[i + 1..], t) + QueuedHere(s, t)
  {
    QueuedConcat(subs[..i] + subs[i + 1..], [s], t);
    QueuedConcat(subs[..i], subs[i + 1..], t);
  }

  /** Same task list, same counts, and each sub-task as it was, but for the status of those under way. */
  ghost predicate Moves(p: Slots, q: Slots) {
    && q == p.(subs := q.subs)
    && Distinct(Keys(q.subs, SubId))
    && (forall t :: QueuedIds(q.subs, t) == QueuedIds(p.subs, t))
    && forall id :: SameSub(Sub(p, id), Sub(q, id), id in p.consumed)
  }

  ghost predicate SameSub(s: Option<SubTask>, r: Option<SubTask>, over: bool) {
    && (s.Some? <==> r.Some?)
    && (s.Some? ==> s.value.parent == r.value.parent && (s.value.status == Queuing <==> r.value.status == Queuing))
    && (s.Some? && over ==> s.value.status == r.value.status)
  }

  lemma SetMoves(p: Slots, s: SubTask)
    requires Distinct(Keys(p.subs, SubId)) && Sub(p, s.id).Some?
    requires var was := Sub(p, s.id).value;
             && s.parent == was.parent && s.status != Queuing && was.status != Queuing
             && (s.id in p.consumed ==> s.status == was.status)
    ensures Moves(p, p.(subs := MoveBack(p.subs, SubId, s)))
  {
    var i := FindIndex(p.subs, SubId, s.id).value;
    var q := p.(subs := MoveBack(p.subs, SubId, s));
    MoveBackDistinct(p.subs, SubId, s);
    forall t ensures QueuedIds(q.subs, t) == QueuedIds(p.subs, t) {
      QueuedSplit(p.subs, i, t);
      QueuedMoved(p.subs, i, s, t);
    }
    forall id ensures SameSub(Sub(p, id), Sub(q, id), id in p.consumed) { MoveBackFinds(p.subs, SubId, s, id); }
  }

  lemma MovesTwice(p: Slots, q: Slots, r: Slots)
    requires Moves(p, q) && Moves(q, r)
    ensures Moves(p, r)
  {
    forall id ensures SameSub(Sub(p, id), Sub(r, id), id in p.consumed) {
      assert SameSub(Sub(p, id), Sub(q, id), id in p.consumed) && SameSub(Sub(q, id), Sub(r, id), id in p.consumed);
    }
  }

  lemma MovesDispatched(p: Slots, q: Slots)
    requires Distinct(Keys(p.subs, SubId)) && Moves(p, q)
    ensures Dispatched(q.subs) == Dispatched(p.subs)
  {
    forall id ensures id in Dispatched(q.subs) <==> id in Dispatched(p.subs) {
      DispatchedIs(p.subs, id);
      DispatchedIs(q.subs, id);
      assert SameSub(Sub(p, id), Sub(q, id), id in p.consumed);
    }
  }

  /** A change that leaves one task and its sub-tasks alone. */
  ghost predicate SameFor(p: Slots, q: Slots, t: Uuid)
    requires t in p.submitted
  {
    && t in q.submitted && q.submitted[t] == p.submitted[t] && q.limit == p.limit
    && QueuedIds(q.subs, t) == QueuedIds(p.subs, t)
    && forall id :: id in p.submitted[t] ==>
         SameSub(Sub(p, id), Sub(q, id), id in p.consumed) && (id in p.consumed <==> id in q.consumed)
  }

  lemma SameStaggered(p: Slots, q: Slots, t: Uuid)
    requires t in p.submitted && Staggered(p, t) && SameFor(p, q, t)
    ensures Staggered(q, t)
    ensures forall id :: id in p.submitted[t] && DoneWith(p, id) ==> DoneWith(q, id)
  {
    var l := p.submitted[t];
    forall i | 0 <= i < |l|
      ensures SameSub(Sub(p, l[i]), Sub(q, l[i]), l[i] in p.consumed) && (DoneWith(p, l[i]) ==> DoneWith(q, l[i]))
    {
      assert l[i] in l;
    }
  }

  lemma SameInOrder(p: Slots, q: Slots, t: Uuid)
    requires t in p.submitted && InOrder(p, t) && SameFor(p, q, t)
    requires Find(q.tasks, TaskId, t) == Find(p.tasks, TaskId, t)
    ensures InOrder(q, t) && (Moving(p, t) ==> Moving(q, t))
  {
    SameStaggered(p, q, t);
    SameStatusFits(p, q, t);
  }

  lemma SameStatusFits(p: Slots, q: Slots, t: Uuid)
    requires t in p.submitted && InOrder(p, t) && SameFor(p, q, t)
    requires Find(q.tasks, TaskId, t) == Find(p.tasks, TaskId, t)
    requires Staggered(q, t)
    requires forall id :: id in p.submitted[t] && DoneWith(p, id) ==> DoneWith(q, id)
    ensures StatusFits(q, t) && (Moving(p, t) ==> Moving(q, t))
  {
    var l := p.submitted[t];
    var k := Started(p, t);
    if k > 0 { assert l[k - 1] in l; }
  }

  /** A change that has nothing to do with one task. */
  ghost predicate Apart(p: Slots, q: Slots, t: Uuid)
    requires t in p.submitted
  {
    SameFor(p, q, t) && Find(q.tasks, TaskId, t) == Find(p.tasks, TaskId, t)
  }

  lemma MovesApart(p: Slots, q: Slots, t: Uuid)
    requires Moves(p, q) && t in p.submitted
    ensures Apart(p, q, t)
  {
    assert QueuedIds(q.subs, t) == QueuedIds(p.subs, t);
  }

  lemma MovesListed(p: Slots, q: Slots)
    requires Moves(p, q) && Listed(p)
    ensures Listed(q)
  {
    forall id | Sub(q, id).Some?
      ensures Sub(q, id).value.parent in q.submitted && id in q.submitted[Sub(q, id).value.parent]
    {
      assert SameSub(Sub(p, id), Sub(q, id), id in p.consumed);
    }
  }

  lemma MovesCounted(p: Slots, q: Slots)
    requires Distinct(Keys(p.subs, SubId)) && Moves(p, q) && Counted(p)
    ensures Counted(q)
  {
    MovesDispatched(p, q);
    forall id | id in q.consumed ensures Sub(q, id).Some? && Sub(q, id).value.status != Queuing {
      assert SameSub(Sub(p, id), Sub(q, id), id in p.consumed);
    }
  }

  lemma MovesOrdered(p: Slots, q: Slots)
    requires Moves(p, q) && Ordered(p)
    ensures Ordered(q)
  {
    MovesListed(p, q);
    MovesCounted(p, q);
    forall t | t in q.submitted ensures InOrder(q, t) && Moving(q, t) { MovesApart(p, q, t); SameInOrder(p, q, t); }
  }

  // ---------------------------------------------------------------- starting a sub-task

  lemma FirstOfCons(x: SubTask, body: seq<SubTask>)
    ensures FirstQueuing([x] + body) == if x.status == Queuing then Some(x) else FirstQueuing(body)
  {
    assert ([x] + body)[1..] == body;
  }

  lemma BodyOfCons(subs: seq<SubTask>, t: Uuid)
    requires subs != []
    ensures Body(subs, t) == if subs[0].parent == t then [subs[0]] + Body(subs[1..], t) else Body(subs[1..], t)
  {
    assert [] + Body(subs[1..], t) == Body(subs[1..], t);
  }

  lemma FirstOfBody(subs: seq<SubTask>, t: Uuid)
    requires subs != []
    ensures FirstQueuing(Body(subs, t)) ==
            if QueuedHere(subs[0], t) != [] then Some(subs[0]) else FirstQueuing(Body(subs[1..], t))
  {
    BodyOfCons(subs, t);
    FirstOfCons(subs[0], Body(subs[1..], t));
  }

  /** The sub-task picked from the body is the first queued record of the task. */
  lemma {:induction false} FirstIsHead(subs: seq<SubTask>, t: Uuid)
    ensures var s := FirstQueuing(Body(subs, t));
            && (s.None? <==> QueuedIds(subs, t) == [])
            && (s.Some? ==> QueuedIds(subs, t) != [] && QueuedIds(subs, t)[0] == s.value.id && s.value.parent == t)
  {
    if subs != [] {
      FirstOfBody(subs, t);
      if QueuedHere(subs[0], t) == [] { FirstIsHead(subs[1..], t); }
    }
  }

  /** Nothing queued of the task comes before it. */
  lemma {:induction false} NothingBefore(subs: seq<SubTask>, t: Uuid, s: SubTask)
    requires Distinct(Keys(subs, SubId)) && FirstQueuing(Body(subs, t)) == Some(s)
    ensures var i := FindIndex(subs, SubId, s.id);
            i.Some? && subs[i.value] == s && QueuedIds(subs[..i.value], t) == []
  {
    FirstOfBody(subs, t);
    if QueuedHere(subs[0], t) != [] {
      assert subs[..0] == [];
    } else {
      assert Keys(subs[1..], SubId) == Keys(subs, SubId)[1..];
      NothingBefore(subs[1..], t, s);
      NothingBeforeNext(subs, t, s);
    }
  }

  lemma NothingBeforeNext(subs: seq<SubTask>, t: Uuid, s: SubTask)
    requires subs != [] && Distinct(Keys(subs, SubId)) && QueuedHere(subs[0], t) == []
    requires var i := FindIndex(subs[1..], SubId, s.id);
             i.Some? && subs[1..][i.value] == s && QueuedIds(subs[1..][..i.value], t) == []
    ensures var i := FindIndex(subs, SubId, s.id);
            i.Some? && subs[i.value] == s && QueuedIds(subs[..i.value], t) == []
  {
    var i := FindIndex(subs[1..], SubId, s.id).value;
    DistinctAny(Keys(subs, SubId), 0, i + 1);
    assert subs[..i + 1] == [subs[0]] + subs[1..][..i];
    QueuedConcat([subs[0]], subs[1..][..i], t);
  }

  /** The state once the first queued sub-task of a task was handed over and a slot taken. */
  ghost predicate Starts(p: Slots, q: Slots, s: SubTask) {
    && q == p.(subs := q.subs, count := p.count + 1)
    && Distinct(Keys(q.subs, SubId))
    && (forall t :: t != s.parent ==> QueuedIds(q.subs, t) == QueuedIds(p.subs, t))
    && QueuedIds(p.subs, s.parent) == [s.id] + QueuedIds(q.subs, s.parent)
    && Sub(p, s.id) == Some(s) && s.status == Queuing
    && Sub(q, s.id).Some? && Sub(q, s.id).value.parent == s.parent && Sub(q, s.id).value.status != Queuing
    && forall id :: id != s.id ==> SameSub(Sub(p, id), Sub(q, id), id in p.consumed)
  }

  lemma MovedQueued(subs: seq<SubTask>, i: nat, r: SubTask, u: Uuid)
    requires i < |subs| && r.status != Queuing && (QueuedHere(subs[i], u) != [] ==> QueuedIds(subs[..i], u) == [])
    ensures QueuedIds(subs, u) == QueuedHere(subs[i], u) + QueuedIds(RemoveAt(subs, i) + [r], u)
  {
    QueuedSplit(subs, i, u);
    QueuedMoved(subs, i, r, u);
  }

  lemma SetStarts(p: Slots, t: Uuid, s: SubTask, status: Status)
    requires Distinct(Keys(p.subs, SubId)) && FirstQueuing(Body(p.subs, t)) == Some(s) && status != Queuing
    ensures s.parent == t
    ensures Starts(p, p.(subs := MoveBack(p.subs, SubId, s.(status := status)), count := p.count + 1), s)
  {
    FirstIsHead(p.subs, t);
    NothingBefore(p.subs, t, s);
    MovedStarts(p, FindIndex(p.subs, SubId, s.id).value, s, s.(status := status));
  }

  lemma MovedStarts(p: Slots, i: nat, s: SubTask, r: SubTask)
    requires Distinct(Keys(p.subs, SubId)) && FindIndex(p.subs, SubId, s.id) == Some(i) && i < |p.subs|
    requires p.subs[i] == s
    requires r.id == s.id && r.parent == s.parent && s.status == Queuing && r.status != Queuing
    requires QueuedIds(p.subs[..i], s.parent) == []
    ensures Starts(p, p.(subs := MoveBack(p.subs, SubId, r), count := p.count + 1), s)
  {
    var q := p.(subs := MoveBack(p.subs, SubId, r), count := p.count + 1);
    MoveBackDistinct(p.subs, SubId, r);
    MoveBackFinds(p.subs, SubId, r, s.id);
    MovedQueues(p.subs, i, r);
    forall id | id != s.id ensures SameSub(Sub(p, id), Sub(q, id), id in p.consumed) { MovedSame(p, r, id); }
  }

  lemma MovedQueues(subs: seq<SubTask>, i: nat, r: SubTask)
    requires i < |subs| && subs[i].status == Queuing && r.status != Queuing
    requires QueuedIds(subs[..i], subs[i].parent) == []
    ensures var s, moved := subs[i], RemoveAt(subs, i) + [r];
            && QueuedIds(subs, s.parent) == [s.id] + QueuedIds(moved, s.parent)
            && forall u :: u != s.parent ==> QueuedIds(moved, u) == QueuedIds(subs, u)
  {
    var s, moved := subs[i], RemoveAt(subs, i) + [r];
    MovedQueued(subs, i, r, s.parent);
    forall u | u != s.parent ensures QueuedIds(moved, u) == QueuedIds(subs, u) {
      MovedQueued(subs, i, r, u);
      assert [] + QueuedIds(moved, u) == QueuedIds(moved, u);
    }
  }

  lemma MovedSame(p: Slots, r: SubTask, id: Uuid)
    requires Distinct(Keys(p.subs, SubId)) && Sub(p, r.id).Some? && id != r.id
    ensures SameSub(Sub(p, id), Sub(p.(subs := MoveBack(p.subs, SubId, r)), id), id in p.consumed)
  {
    MoveBackFinds(p.subs, SubId, r, id);
  }

  lemma StartsThenMoves(p: Slots, q: Slots, r: Slots, s: SubTask)
    requires Starts(p, q, s) && Moves(q, r)
    ensures Starts(p, r, s)
  {
    assert QueuedIds(r.subs, s.parent) == QueuedIds(q.subs, s.parent);
    assert SameSub(Sub(q, s.id), Sub(r, s.id), s.id in q.consumed);
    forall t | t != s.parent ensures QueuedIds(r.subs, t) == QueuedIds(p.subs, t) {
      assert QueuedIds(r.subs, t) == QueuedIds(q.subs, t);
    }
    forall id | id != s.id ensures SameSub(Sub(p, id), Sub(r, id), id in p.consumed) {
      assert SameSub(Sub(p, id), Sub(q, id), id in p.consumed) && SameSub(Sub(q, id), Sub(r, id), id in p.consumed);
    }
  }

  /** Nothing of the task is under way, and unless it is new something is left to start. */
  ghost predicate Idle(p: Slots, t: Uuid) {
    && t in p.submitted && InOrder(p, t)
    && Find(p.tasks, TaskId, t) == Some(Task(t, Running))
    && (Started(p, t) > 0 ==> DoneWith(p, p.submitted[t][Started(p, t) - 1]))
  }

  lemma StartsDispatched(p: Slots, q: Slots, s: SubTask)
    requires Distinct(Keys(p.subs, SubId)) && Starts(p, q, s)
    ensures Dispatched(q.subs) == Dispatched(p.subs) + {s.id} && s.id !in Dispatched(p.subs)
  {
    DispatchedIs(p.subs, s.id);
    forall id ensures id in Dispatched(q.subs) <==> id in Dispatched(p.subs) || id == s.id {
      DispatchedIs(p.subs, id);
      DispatchedIs(q.subs, id);
      if id != s.id { assert SameSub(Sub(p, id), Sub(q, id), id in p.consumed); }
    }
  }

  lemma StartsApart(p: Slots, q: Slots, s: SubTask, t: Uuid)
    requires Starts(p, q, s) && t in p.submitted && InOrder(p, t) && t != s.parent
    ensures Apart(p, q, t)
  {
    assert QueuedIds(q.subs, t) == QueuedIds(p.subs, t);
    forall id | id in p.submitted[t] ensures SameSub(Sub(p, id), Sub(q, id), id in p.consumed) { assert id != s.id; }
  }

  lemma StartsOwn(p: Slots, q: Slots, s: SubTask)
    requires Starts(p, q, s) && Idle(p, s.parent) && s.id !in p.consumed
    ensures InOrder(q, s.parent) && Moving(q, s.parent)
  {
    var t := s.parent;
    var l := p.submitted[t];
    var k := Started(p, t);
    assert l[k] == l[k..][0] == s.id && Started(q, t) == k + 1;
    assert QueuedIds(q.subs, t) == l[k + 1..] by { assert l[k..][1..] == l[k + 1..]; }
    forall i | 0 <= i < |l| && i != k ensures SameSub(Sub(p, l[i]), Sub(q, l[i]), l[i] in p.consumed) {
      DistinctAny(l, i, k);
    }
    StaggeredNext(p, q, t);
  }

  /** One more sub-task started, the ones before it over. */
  lemma StaggeredNext(p: Slots, q: Slots, t: Uuid)
    requires t in p.submitted && Staggered(p, t) && q.submitted == p.submitted && q.consumed == p.consumed
    requires Started(p, t) < |p.submitted[t]| && Started(q, t) == Started(p, t) + 1
    requires var l := p.submitted[t];
             var k := Started(p, t);
             && (k > 0 ==> DoneWith(p, l[k - 1])) && QueuedIds(q.subs, t) == l[k + 1..]
             && Sub(q, l[k]).Some? && Sub(q, l[k]).value.parent == t && Sub(q, l[k]).value.status != Queuing
             && forall i :: 0 <= i < |l| && i != k ==> SameSub(Sub(p, l[i]), Sub(q, l[i]), l[i] in p.consumed)
    ensures Staggered(q, t)
  {
  }

  /** Everything about the state but the task being scheduled. */
  ghost predicate OrderedBut(p: Slots, t: Uuid) {
    Listed(p) && Counted(p) && forall u :: u in p.submitted && u != t ==> InOrder(p, u) && Moving(p, u)
  }

  lemma StartsListed(p: Slots, q: Slots, s: SubTask)
    requires Starts(p, q, s) && Listed(p)
    ensures Listed(q)
  {
    forall id | Sub(q, id).Some?
      ensures Sub(q, id).value.parent in q.submitted && id in q.submitted[Sub(q, id).value.parent]
    {
      if id != s.id { assert SameSub(Sub(p, id), Sub(q, id), id in p.consumed); }
      assert Sub(p, id).Some?;
    }
  }

  lemma StartsCounted(p: Slots, q: Slots, s: SubTask)
    requires Starts(p, q, s) && Listed(p) && Counted(p) && s.id !in p.consumed && (p.limit != 0 ==> p.count != p.limit)
    ensures Counted(q)
  {
    StartsDispatched(p, q, s);
    forall id | id in q.consumed ensures Sub(q, id).Some? && Sub(q, id).value.status != Queuing {
      assert SameSub(Sub(p, id), Sub(q, id), id in p.consumed);
    }
  }

  lemma StartsOrdered(p: Slots, q: Slots, s: SubTask)
    requires Starts(p, q, s) && OrderedBut(p, s.parent) && Idle(p, s.parent) && (p.limit != 0 ==> p.count != p.limit)
    ensures Ordered(q)
  {
    assert s.id !in p.consumed;
    StartsListed(p, q, s);
    StartsCounted(p, q, s);
    StartsOwn(p, q, s);
    forall t | t in q.submitted && t != s.parent ensures InOrder(q, t) && Moving(q, t) {
      StartsApart(p, q, s, t);
      SameInOrder(p, q, t);
    }
  }
}
