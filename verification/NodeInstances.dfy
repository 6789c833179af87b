/** The node instances a workflow instance is parsed into, the repository they live in, and the
    position of a sub-task among its siblings. */
module NodeInstances {
  import opened Basics
  import opened WorkflowModel
  import opened BatchCount
  import Text

  datatype Status = Created | Pending | Running | Finished | Error | Stopping | Stopped
                  | Standby | Pausing | Paused | Recovering

  datatype NodeInstance = NodeInstance(id: Uuid, name: string, isParent: bool, batchParent: Option<Uuid>,
                                       flowId: Uuid, status: Status)

  function InstanceId(n: NodeInstance): Uuid { n.id }

  // ---------------------------------------------------------------- parsing

  /** The fresh id drawn for the i-th sub-task of the k-th node. */
  type Draw = (nat, nat) -> Uuid

  function Root(inst: Instance, n: NodeSpec): NodeInstance {
    NodeInstance(n.id, n.name, n.strategies != [], None, inst.id, Created)
  }

  function SubInstance(inst: Instance, n: NodeSpec, id: Uuid, i: nat): NodeInstance {
    NodeInstance(id, n.name + "_sub_task_" + Text.FromNat(i), false, Some(n.id), inst.id, Created)
  }

  function SubInstances(inst: Instance, k: nat, count: nat, draw: Draw): (subs: seq<NodeInstance>)
    requires k < |inst.nodes|
    ensures |subs| == count
    ensures forall i :: 0 <= i < count ==> subs[i] == SubInstance(inst, inst.nodes[k], draw(k, i), i)
  {
    seq(count, i requires 0 <= i < count => SubInstance(inst, inst.nodes[k], draw(k, i), i))
  }

  /** How many sub-instances the k-th node is given. The number of nodes is depth enough to tell a
      recursion that never ends (`BatchCount.DepthEnough`). */
  function SubCount(inst: Instance, k: nat): Counted
    requires k < |inst.nodes|
  {
    if inst.nodes[k].strategies == [] then Count(0) else SubNodeCount(inst, inst.nodes[k].id, |inst.nodes|)
  }

  /** How parsing ends: with node instances, in an `unwrap` on nothing, or not at all. */
  datatype Parse = Parsed(nodes: seq<NodeInstance>) | Unwraps | NeverReturns

  /** A node with its sub-instances. */
  function Emitted(inst: Instance, k: nat, count: nat, draw: Draw): seq<NodeInstance>
    requires k < |inst.nodes|
  {
    [Root(inst, inst.nodes[k])] + SubInstances(inst, k, count, draw)
  }

  function ParseFrom(inst: Instance, k: nat, draw: Draw): Parse
    requires k <= |inst.nodes|
    decreases |inst.nodes| - k
  {
    if k == |inst.nodes| then Parsed([])
    else
      match SubCount(inst, k)
      case Stuck => Unwraps
      case TooDeep => NeverReturns
      case Count(n) =>
        After(Emitted(inst, k, n, draw), ParseFrom(inst, k + 1, draw))
  }

  function After(front: seq<NodeInstance>, rest: Parse): Parse {
    if rest.Parsed? then Parsed(front + rest.nodes) else rest
  }

  /** `parse_node_instances`, node by node. */
  method ParseNodeInstances(inst: Instance, draw: Draw) returns (result: Parse)
    ensures result == ParseFrom(inst, 0, draw)
  {
    var all: seq<NodeInstance> := [];
    var k := 0;
    AfterNothing(ParseFrom(inst, 0, draw));
    while k < |inst.nodes|
      invariant 0 <= k <= |inst.nodes|
      invariant ParseFrom(inst, 0, draw) == After(all, ParseFrom(inst, k, draw))
    {
      var count := SubCount(inst, k);
      if count.Stuck? { return Unwraps; }
      if count.TooDeep? { return NeverReturns; }
      AfterNode(inst, k, draw, all);
      var nodeInstances := EmitNode(inst, k, count.n, draw);
      all := all + nodeInstances;
      k := k + 1;
    }
    assert all + [] == all;
    return Parsed(all);
  }

  /** Its push loop for one node. */
  method EmitNode(inst: Instance, k: nat, count: nat, draw: Draw) returns (nodeInstances: seq<NodeInstance>)
    requires k < |inst.nodes|
    ensures nodeInstances == Emitted(inst, k, count, draw)
  {
    nodeInstances := [Root(inst, inst.nodes[k])];
    for i := 0 to count
      invariant nodeInstances == [Root(inst, inst.nodes[k])] + SubInstances(inst, k, count, draw)[..i]
    {
      nodeInstances := nodeInstances + [SubInstance(inst, inst.nodes[k], draw(k, i), i)];
    }
    assert SubInstances(inst, k, count, draw)[..count] == SubInstances(inst, k, count, draw);
  }

  lemma AfterNothing(rest: Parse)
    ensures After([], rest) == rest
  {
    assert rest.Parsed? ==> [] + rest.nodes == rest.nodes;
  }

  lemma AfterBoth(front: seq<NodeInstance>, own: seq<NodeInstance>, rest: Parse)
    ensures After(front, After(own, rest)) == After(front + own, rest)
  {
    if rest.Parsed? { assert front + (own + rest.nodes) == front + own + rest.nodes; }
  }

  lemma AfterNode(inst: Instance, k: nat, draw: Draw, front: seq<NodeInstance>)
    requires k < |inst.nodes| && SubCount(inst, k).Count?
    ensures After(front, ParseFrom(inst, k, draw)) ==
            After(front + Emitted(inst, k, SubCount(inst, k).n, draw), ParseFrom(inst, k + 1, draw))
  {
    AfterBoth(front, Emitted(inst, k, SubCount(inst, k).n, draw), ParseFrom(inst, k + 1, draw));
  }

  /** The first node whose count does not come back decides. */
  lemma {:induction false} ParsesExactly(inst: Instance, from: nat, draw: Draw)
    requires from <= |inst.nodes|
    ensures ParseFrom(inst, from, draw).Parsed? <==> forall k :: from <= k < |inst.nodes| ==> SubCount(inst, k).Count?
    ensures ParseFrom(inst, from, draw).Unwraps? ==> exists k :: from <= k < |inst.nodes| && SubCount(inst, k).Stuck?
    decreases |inst.nodes| - from
  {
    if from < |inst.nodes| { ParsesExactly(inst, from + 1, draw); }
  }

  lemma {:induction false} ParsedNext(inst: Instance, from: nat, draw: Draw)
    requires from < |inst.nodes| && ParseFrom(inst, from, draw).Parsed?
    ensures SubCount(inst, from).Count? && ParseFrom(inst, from + 1, draw).Parsed?
    ensures ParseFrom(inst, from, draw).nodes ==
            Emitted(inst, from, SubCount(inst, from).n, draw) + ParseFrom(inst, from + 1, draw).nodes
  {
  }

  /** Where the k-th node's own instance stands among what the nodes from `from` on emit: behind each earlier
      node and its sub-instances. */
  ghost function Offset(inst: Instance, from: nat, k: nat): nat
    requires from <= k <= |inst.nodes| && forall j :: from <= j < k ==> Known(inst, j)
    decreases k - from
  {
    if from == k then 0 else 1 + SubsOf(inst, from) + Offset(inst, from + 1, k)
  }

  /** A node that is not batched has no sub-instances; of a batched one the count must come back. */
  ghost predicate Known(inst: Instance, k: nat)
    requires k < |inst.nodes|
  {
    inst.nodes[k].strategies != [] ==> SubNodeCount(inst, inst.nodes[k].id, |inst.nodes|).Count?
  }

  ghost function SubsOf(inst: Instance, k: nat): nat
    requires k < |inst.nodes| && Known(inst, k)
  {
    if inst.nodes[k].strategies == [] then 0 else SubNodeCount(inst, inst.nodes[k].id, |inst.nodes|).n
  }

  /** The instance of a node itself. */
  ghost predicate IsRoot(x: NodeInstance, inst: Instance, n: NodeSpec) {
    && x.id == n.id && x.name == n.name && (x.isParent <==> n.strategies != [])
    && x.batchParent == None && x.flowId == inst.id && x.status == Created
  }

  /** Its i-th sub-instance. */
  ghost predicate IsSub(x: NodeInstance, inst: Instance, n: NodeSpec, id: Uuid, i: nat) {
    && x.id == id && x.name == n.name + "_sub_task_" + Text.FromNat(i) && !x.isParent
    && x.batchParent == Some(n.id) && x.flowId == inst.id && x.status == Created
  }

  lemma EmittedFirst(inst: Instance, k: nat, count: nat, draw: Draw, rest: seq<NodeInstance>)
    requires k < |inst.nodes|
    ensures EmittedAt(Emitted(inst, k, count, draw) + rest, 0, inst, k, count, draw)
  {
    var own := Emitted(inst, k, count, draw);
    forall i | 0 <= i < count ensures IsSub((own + rest)[0 + 1 + i], inst, inst.nodes[k], draw(k, i), i) {
      assert (own + rest)[1 + i] == SubInstances(inst, k, count, draw)[i];
    }
  }

  /** The k-th node and its sub-instances stand at a position. */
  ghost predicate EmittedAt(nodes: seq<NodeInstance>, at: nat, inst: Instance, k: nat, count: nat, draw: Draw)
    requires k < |inst.nodes|
  {
    && at + count < |nodes|
    && IsRoot(nodes[at], inst, inst.nodes[k])
    && forall i :: 0 <= i < count ==> IsSub(nodes[at + 1 + i], inst, inst.nodes[k], draw(k, i), i)
  }

  lemma EmittedLater(front: seq<NodeInstance>, nodes: seq<NodeInstance>, at: nat, inst: Instance, k: nat, count: nat,
                     draw: Draw)
    requires k < |inst.nodes| && EmittedAt(nodes, at, inst, k, count, draw)
    ensures EmittedAt(front + nodes, |front| + at, inst, k, count, draw)
  {
    forall i | 0 <= i < count
      ensures IsSub((front + nodes)[|front| + at + 1 + i], inst, inst.nodes[k], draw(k, i), i)
    {
      assert (front + nodes)[|front| + at + 1 + i] == nodes[at + 1 + i];
    }
  }

  lemma AllKnown(inst: Instance, draw: Draw, from: nat)
    requires from <= |inst.nodes| && ParseFrom(inst, from, draw).Parsed?
    ensures forall j :: from <= j < |inst.nodes| ==> Known(inst, j) && SubCount(inst, j) == Count(SubsOf(inst, j))
  {
    ParsesExactly(inst, from, draw);
    forall j | from <= j < |inst.nodes| ensures Known(inst, j) && SubCount(inst, j) == Count(SubsOf(inst, j)) {
      assert SubCount(inst, j).Count?;
    }
  }

  /** Field by field: each node stands behind the earlier nodes and their sub-instances, and is followed by
      its own, in order. */
  lemma {:induction false} EmittedNodes(inst: Instance, from: nat, k: nat, draw: Draw)
    requires from <= k < |inst.nodes| && ParseFrom(inst, from, draw).Parsed?
    ensures forall j :: from <= j < |inst.nodes| ==> Known(inst, j)
    ensures EmittedAt(ParseFrom(inst, from, draw).nodes, Offset(inst, from, k), inst, k, SubsOf(inst, k), draw)
    decreases k - from
  {
    AllKnown(inst, draw, from);
    ParsedNext(inst, from, draw);
    var own := Emitted(inst, from, SubsOf(inst, from), draw);
    var rest := ParseFrom(inst, from + 1, draw).nodes;
    if k == from {
      EmittedFirst(inst, from, SubsOf(inst, from), draw, rest);
    } else {
      EmittedNodes(inst, from + 1, k, draw);
      EmittedLater(own, rest, Offset(inst, from + 1, k), inst, k, SubsOf(inst, k), draw);
    }
  }

  /** And there is nothing else. */
  lemma {:induction false} EmittedCount(inst: Instance, from: nat, draw: Draw)
    requires from <= |inst.nodes| && ParseFrom(inst, from, draw).Parsed?
    ensures forall j :: from <= j < |inst.nodes| ==> Known(inst, j)
    ensures |ParseFrom(inst, from, draw).nodes| == Offset(inst, from, |inst.nodes|)
    decreases |inst.nodes| - from
  {
    AllKnown(inst, draw, from);
    if from < |inst.nodes| {
      ParsedNext(inst, from, draw);
      EmittedCount(inst, from + 1, draw);
    }
  }

  // ---------------------------------------------------------------- siblings

  /** The ids of the instances with that parent, in repository order. */
  function Siblings(nodes: seq<NodeInstance>, parent: Option<Uuid>): seq<Uuid> {
    if nodes == [] then []
    else (if nodes[0].batchParent == parent then [nodes[0].id] else []) + Siblings(nodes[1..], parent)
  }

  lemma {:induction false} SiblingsConcat(a: seq<NodeInstance>, b: seq<NodeInstance>, parent: Option<Uuid>)
    ensures Siblings(a + b, parent) == Siblings(a, parent) + Siblings(b, parent)
  {
    if a == [] {
      assert a + b == b;
    } else {
      assert (a + b)[0] == a[0] && (a + b)[1..] == a[1..] + b;
      SiblingsConcat(a[1..], b, parent);
      var head := if a[0].batchParent == parent then [a[0].id] else [];
      assert head + (Siblings(a[1..], parent) + Siblings(b, parent)) ==
             head + Siblings(a[1..], parent) + Siblings(b, parent);
    }
  }

  lemma {:induction false} NoSiblings(nodes: seq<NodeInstance>, parent: Option<Uuid>)
    requires forall n :: n in nodes ==> n.batchParent != parent
    ensures Siblings(nodes, parent) == []
  {
    if nodes != [] { NoSiblings(nodes[1..], parent); }
  }

  lemma {:induction false} AllSiblings(nodes: seq<NodeInstance>, parent: Option<Uuid>)
    requires forall n :: n in nodes ==> n.batchParent == parent
    ensures Siblings(nodes, parent) == Keys(nodes, InstanceId)
  {
    if nodes != [] {
      AllSiblings(nodes[1..], parent);
      assert Keys(nodes, InstanceId) == [nodes[0].id] + Keys(nodes[1..], InstanceId);
    }
  }

  function Drawn(k: nat, count: nat, draw: Draw): seq<Uuid> {
    seq(count, i requires 0 <= i < count => draw(k, i))
  }

  /** What one node emits, seen from the k-th node as a parent. */
  lemma OwnSiblings(inst: Instance, from: nat, k: nat, count: nat, draw: Draw)
    requires from < |inst.nodes| && k < |inst.nodes| && Distinct(Keys(inst.nodes, SpecId))
    ensures Siblings(Emitted(inst, from, count, draw), Some(inst.nodes[k].id)) ==
            if from == k then Drawn(k, count, draw) else []
  {
    var parent := Some(inst.nodes[k].id);
    var root := [Root(inst, inst.nodes[from])];
    var subs := SubInstances(inst, from, count, draw);
    SiblingsConcat(root, subs, parent);
    NoSiblings(root, parent);
    if from == k {
      AllSiblings(subs, parent);
      assert Keys(subs, InstanceId) == Drawn(k, count, draw);
    } else {
      var ids := Keys(inst.nodes, SpecId);
      DistinctAny(ids, from, k);
      assert inst.nodes[from].id != inst.nodes[k].id;
      NoSiblings(subs, parent);
    }
  }

  lemma SiblingsNext(inst: Instance, from: nat, k: nat, draw: Draw)
    requires from < |inst.nodes| && k < |inst.nodes| && Distinct(Keys(inst.nodes, SpecId))
    requires SubCount(inst, from).Count?
    requires ParseFrom(inst, from, draw).Parsed? && ParseFrom(inst, from + 1, draw).Parsed?
    ensures var parent := Some(inst.nodes[k].id);
            Siblings(ParseFrom(inst, from, draw).nodes, parent) ==
            (if from == k then Drawn(k, SubCount(inst, from).n, draw) else [])
            + Siblings(ParseFrom(inst, from + 1, draw).nodes, parent)
  {
    ParsedNext(inst, from, draw);
    var count := SubCount(inst, from).n;
    SiblingsConcat(Emitted(inst, from, count, draw), ParseFrom(inst, from + 1, draw).nodes, Some(inst.nodes[k].id));
    OwnSiblings(inst, from, k, count, draw);
  }

  lemma ParsesOn(inst: Instance, from: nat, draw: Draw)
    requires from < |inst.nodes| && ParseFrom(inst, from, draw).Parsed?
    ensures SubCount(inst, from).Count? && ParseFrom(inst, from + 1, draw).Parsed?
  {
    ParsedNext(inst, from, draw);
  }

  /** The sub-instances of the k-th node among what the nodes from `from` on emit. */
  function DrawnFrom(inst: Instance, from: nat, k: nat, draw: Draw): seq<Uuid>
    requires k < |inst.nodes| && SubCount(inst, k).Count?
  {
    if from <= k then Drawn(k, SubCount(inst, k).n, draw) else []
  }

  lemma DrawnNext(inst: Instance, from: nat, k: nat, draw: Draw)
    requires k < |inst.nodes| && SubCount(inst, k).Count?
    ensures DrawnFrom(inst, from, k, draw) ==
            (if from == k then Drawn(k, SubCount(inst, k).n, draw) else []) + DrawnFrom(inst, from + 1, k, draw)
  {
    var ids := Drawn(k, SubCount(inst, k).n, draw);
    assert [] + ids == ids + [] == ids;
  }

  /** The instances emitted for a parent are its sub-node count many, in index order, and no others. */
  lemma {:induction false} EmittedPerParent(inst: Instance, from: nat, k: nat, draw: Draw)
    requires from <= |inst.nodes| && k < |inst.nodes| && Distinct(Keys(inst.nodes, SpecId))
    requires ParseFrom(inst, from, draw).Parsed? && SubCount(inst, k).Count?
    ensures Siblings(ParseFrom(inst, from, draw).nodes, Some(inst.nodes[k].id))
            == DrawnFrom(inst, from, k, draw)
    decreases |inst.nodes| - from
  {
    if from < |inst.nodes| {
      ParsesOn(inst, from, draw);
      EmittedPerParent(inst, from + 1, k, draw);
      PerParentNext(inst, from, k, draw);
    }
  }

  lemma PerParentNext(inst: Instance, from: nat, k: nat, draw: Draw)
    requires from < |inst.nodes| && k < |inst.nodes| && Distinct(Keys(inst.nodes, SpecId))
    requires SubCount(inst, from).Count? && SubCount(inst, k).Count?
    requires ParseFrom(inst, from, draw).Parsed? && ParseFrom(inst, from + 1, draw).Parsed?
    requires Siblings(ParseFrom(inst, from + 1, draw).nodes, Some(inst.nodes[k].id)) ==
             DrawnFrom(inst, from + 1, k, draw)
    ensures Siblings(ParseFrom(inst, from, draw).nodes, Some(inst.nodes[k].id)) == DrawnFrom(inst, from, k, draw)
  {
    SiblingsNext(inst, from, k, draw);
    DrawnNext(inst, from, k, draw);
  }

  // ---------------------------------------------------------------- the repository

  function RemoveAt<T>(s: seq<T>, i: nat): seq<T>
    requires i < |s|
  {
    s[..i] + s[i + 1..]
  }

  /** `insert`: a record of the same id is removed, the new one goes to the back. */
  function Inserted(nodes: seq<NodeInstance>, n: NodeInstance): seq<NodeInstance> {
    var i := FindIndex(nodes, InstanceId, n.id);
    (if i.None? then nodes else RemoveAt(nodes, i.value)) + [n]
  }

  /** `update`: the record of the same id is replaced where it stands; with none there, nothing. */
  function Updated(nodes: seq<NodeInstance>, n: NodeInstance): seq<NodeInstance> {
    var i := FindIndex(nodes, InstanceId, n.id);
    if i.None? then nodes else nodes[i.value := n]
  }

  function Position(ids: seq<Uuid>, id: Uuid): (r: Option<nat>)
    ensures r.Some? ==> r.value < |ids| && ids[r.value] == id
    ensures r.None? ==> id !in ids
  {
    if ids == [] then None
    else if ids[0] == id then Some(0)
    else
      var r := Position(ids[1..], id);
      if r.None? then None else Some(r.value + 1)
  }

  /** `get_nth_of_batch_tasks`. */
  function NthOfBatch(nodes: seq<NodeInstance>, id: Uuid): Option<nat> {
    var n := Find(nodes, InstanceId, id);
    if n.None? then None else Position(Siblings(nodes, n.value.batchParent), id)
  }

  class NodeRepository {
    var nodes: seq<NodeInstance>

    constructor ()
      ensures nodes == []
    {
      nodes := [];
    }

    method Insert(n: NodeInstance)
      modifies this
      ensures nodes == Inserted(old(nodes), n)
    {
      var i := FindIndex(nodes, InstanceId, n.id);
      if i.Some? {
        nodes := RemoveAt(nodes, i.value);
      }
      nodes := nodes + [n];
    }

    method Update(n: NodeInstance) returns (found: bool)
      modifies this
      ensures nodes == Updated(old(nodes), n)
      ensures found <==> exists old_n :: old_n in old(nodes) && old_n.id == n.id
    {
      var i := FindIndex(nodes, InstanceId, n.id);
      if i.None? {
        return false;
      }
      nodes := nodes[i.value := n];
      return true;
    }

    /** `submit_workflow` inserts the parsed instances one by one. */
    method InsertAll(ns: seq<NodeInstance>)
      modifies this
      ensures nodes == InsertedAll(old(nodes), ns)
    {
      assert ns[..0] == [];
      for i := 0 to |ns|
        invariant nodes == InsertedAll(old(nodes), ns[..i])
      {
        assert ns[..i + 1][..i] == ns[..i];
        Insert(ns[i]);
      }
      assert ns[..|ns|] == ns;
    }
  }

  function InsertedAll(nodes: seq<NodeInstance>, ns: seq<NodeInstance>): seq<NodeInstance> {
    if ns == [] then nodes else Inserted(InsertedAll(nodes, ns[..|ns| - 1]), ns[|ns| - 1])
  }

  lemma LastAppended(nodes: seq<NodeInstance>, ns: seq<NodeInstance>)
    requires ns != [] && Distinct(Keys(nodes + ns, InstanceId))
    ensures Distinct(Keys(nodes + ns[..|ns| - 1], InstanceId))
    ensures Inserted(nodes + ns[..|ns| - 1], ns[|ns| - 1]) == nodes + ns
  {
    var ids := Keys(nodes + ns, InstanceId);
    var front, last := nodes + ns[..|ns| - 1], ns[|ns| - 1];
    assert nodes + ns == front + [last];
    assert Keys(front, InstanceId) == ids[..|front|];
    forall i | 0 <= i < |front| ensures front[i].id != last.id { DistinctAny(ids, i, |front|); }
  }

  /** Fresh instances are simply appended. */
  lemma {:induction false} FreshAppended(nodes: seq<NodeInstance>, ns: seq<NodeInstance>)
    requires Distinct(Keys(nodes + ns, InstanceId))
    ensures InsertedAll(nodes, ns) == nodes + ns
  {
    if ns != [] {
      LastAppended(nodes, ns);
      FreshAppended(nodes, ns[..|ns| - 1]);
    } else {
      assert nodes + ns == nodes;
    }
  }

  // ---------------------------------------------------------------- index stability

  datatype RepoStep = UpdateStep(n: NodeInstance) | InsertStep(n: NodeInstance)

  function ApplyStep(nodes: seq<NodeInstance>, step: RepoStep): seq<NodeInstance> {
    match step
    case UpdateStep(n) => Updated(nodes, n)
    case InsertStep(n) => Inserted(nodes, n)
  }

  function ApplySteps(nodes: seq<NodeInstance>, steps: seq<RepoStep>): seq<NodeInstance>
    decreases |steps|
  {
    if steps == [] then nodes else ApplySteps(ApplyStep(nodes, steps[0]), steps[1..])
  }

  /** An update that keeps the parent, or an insertion of a new instance under another parent. */
  ghost predicate Quiet(nodes: seq<NodeInstance>, parent: Option<Uuid>, step: RepoStep) {
    var n := Find(nodes, InstanceId, step.n.id);
    match step
    case UpdateStep(u) => n.Some? ==> n.value.batchParent == u.batchParent
    case InsertStep(u) => n.None? && u.batchParent != parent
  }

  ghost predicate AllQuiet(nodes: seq<NodeInstance>, parent: Option<Uuid>, steps: seq<RepoStep>)
    decreases |steps|
  {
    steps == [] || (Quiet(nodes, parent, steps[0]) && AllQuiet(ApplyStep(nodes, steps[0]), parent, steps[1..]))
  }

  lemma QuietKeeps(nodes: seq<NodeInstance>, parent: Option<Uuid>, step: RepoStep)
    requires Quiet(nodes, parent, step)
    ensures Siblings(ApplyStep(nodes, step), parent) == Siblings(nodes, parent)
    ensures forall id | Find(nodes, InstanceId, id).Some? && Find(nodes, InstanceId, id).value.batchParent == parent ::
                           var n := Find(ApplyStep(nodes, step), InstanceId, id);
                           n.Some? && n.value.batchParent == parent
  {
    var i := FindIndex(nodes, InstanceId, step.n.id);
    match step
    case UpdateStep(u) =>
      if i.Some? {
        UpdateKeeps(nodes, u, i.value, parent);
        forall id | Find(nodes, InstanceId, id).Some? && Find(nodes, InstanceId, id).value.batchParent == parent
          ensures var n := Find(ApplyStep(nodes, step), InstanceId, id);
                  n.Some? && n.value.batchParent == parent
        {
          FindAfterUpdate(nodes, u, id);
        }
      }
    case InsertStep(u) =>
      SiblingsConcat(nodes, [u], parent);
      NoSiblings([u], parent);
      forall id | Find(nodes, InstanceId, id).Some?
        ensures Find(nodes + [u], InstanceId, id) == Find(nodes, InstanceId, id)
      {
        FindInFront(nodes, [u], id);
      }
  }

  lemma UpdateKeeps(nodes: seq<NodeInstance>, u: NodeInstance, i: nat, parent: Option<Uuid>)
    requires i < |nodes| && nodes[i].id == u.id && nodes[i].batchParent == u.batchParent
    ensures Siblings(nodes[i := u], parent) == Siblings(nodes, parent)
  {
    var a, b := nodes[..i], nodes[i + 1..];
    assert nodes == a + [nodes[i]] + b && nodes[i := u] == a + [u] + b;
    SiblingsConcat(a + [nodes[i]], b, parent);
    SiblingsConcat(a + [u], b, parent);
    SiblingsConcat(a, [nodes[i]], parent);
    SiblingsConcat(a, [u], parent);
  }

  lemma {:induction false} FindAfterUpdate(nodes: seq<NodeInstance>, u: NodeInstance, id: Uuid)
    requires Find(nodes, InstanceId, u.id).Some?
    ensures Find(Updated(nodes, u), InstanceId, id) == if id == u.id then Some(u) else Find(nodes, InstanceId, id)
  {
    if nodes[0].id != u.id {
      FindAfterUpdate(nodes[1..], u, id);
      assert Updated(nodes, u)[1..] == Updated(nodes[1..], u);
    } else {
      assert Updated(nodes, u)[1..] == nodes[1..];
    }
  }

  lemma {:induction false} FindInFront(a: seq<NodeInstance>, b: seq<NodeInstance>, id: Uuid)
    requires Find(a, InstanceId, id).Some?
    ensures Find(a + b, InstanceId, id) == Find(a, InstanceId, id)
  {
    if a[0].id != id {
      FindInFront(a[1..], b, id);
    }
    assert (a + b)[1..] == a[1..] + b;
  }

  /** The index a sub-task was given keeps through any number of quiet steps. */
  lemma {:induction false} IndexStable(nodes: seq<NodeInstance>, parent: Option<Uuid>, steps: seq<RepoStep>, id: Uuid)
    requires AllQuiet(nodes, parent, steps)
    requires Find(nodes, InstanceId, id).Some? && Find(nodes, InstanceId, id).value.batchParent == parent
    ensures NthOfBatch(ApplySteps(nodes, steps), id) == NthOfBatch(nodes, id)
    decreases |steps|
  {
    if steps != [] {
      QuietKeeps(nodes, parent, steps[0]);
      IndexStable(ApplyStep(nodes, steps[0]), parent, steps[1..], id);
    }
  }

  lemma {:induction false} PositionDrawn(ids: seq<Uuid>, i: nat)
    requires i < |ids| && Distinct(ids)
    ensures Position(ids, ids[i]) == Some(i)
  {
    if i > 0 {
      assert ids[0] != ids[i];
      PositionDrawn(ids[1..], i - 1);
    }
  }

  lemma {:induction false} SiblingAt(nodes: seq<NodeInstance>, parent: Option<Uuid>, id: Uuid)
    requires id in Siblings(nodes, parent)
    ensures exists i :: 0 <= i < |nodes| && nodes[i].id == id && nodes[i].batchParent == parent
  {
    if !(nodes[0].batchParent == parent && nodes[0].id == id) {
      SiblingAt(nodes[1..], parent, id);
      var i :| 0 <= i < |nodes[1..]| && nodes[1..][i].id == id && nodes[1..][i].batchParent == parent;
      assert nodes[i + 1] == nodes[1..][i];
    }
  }

  lemma SiblingOf(nodes: seq<NodeInstance>, parent: Option<Uuid>, id: Uuid)
    requires id in Siblings(nodes, parent) && Distinct(Keys(nodes, InstanceId))
    ensures Find(nodes, InstanceId, id).Some? && Find(nodes, InstanceId, id).value.batchParent == parent
  {
    SiblingAt(nodes, parent, id);
    var k :| 0 <= k < |nodes| && nodes[k].id == id && nodes[k].batchParent == parent;
    FindUnique(nodes, InstanceId, k);
  }

  /** After a submission, and after any later run of quiet steps (updates that keep id and parent,
      submissions of other workflows), the i-th sub-task of a parent is the i-th of its batch. */
  lemma SubmittedIndexStable(before: seq<NodeInstance>, inst: Instance, k: nat, i: nat, draw: Draw,
                             steps: seq<RepoStep>)
    requires k < |inst.nodes| && Distinct(Keys(inst.nodes, SpecId))
    requires ParseFrom(inst, 0, draw).Parsed? && SubCount(inst, k).Count? && i < SubCount(inst, k).n
    requires Distinct(Keys(before + ParseFrom(inst, 0, draw).nodes, InstanceId))
    requires forall n :: n in before ==> n.batchParent != Some(inst.nodes[k].id)
    requires AllQuiet(InsertedAll(before, ParseFrom(inst, 0, draw).nodes), Some(inst.nodes[k].id), steps)
    ensures NthOfBatch(ApplySteps(InsertedAll(before, ParseFrom(inst, 0, draw).nodes), steps), draw(k, i)) == Some(i)
  {
    var parent := Some(inst.nodes[k].id);
    var parsed := ParseFrom(inst, 0, draw).nodes;
    var nodes := before + parsed;
    FreshAppended(before, parsed);
    SiblingsConcat(before, parsed, parent);
    NoSiblings(before, parent);
    EmittedPerParent(inst, 0, k, draw);
    var drawn := Drawn(k, SubCount(inst, k).n, draw);
    assert Siblings(nodes, parent) == drawn;
    assert drawn[i] == draw(k, i) && draw(k, i) in drawn;
    SiblingOf(nodes, parent, draw(k, i));
    SiblingsDistinct(nodes, parent);
    PositionDrawn(drawn, i);
    IndexStable(nodes, parent, steps, draw(k, i));
  }

  lemma TailDistinct(nodes: seq<NodeInstance>)
    requires nodes != [] && Distinct(Keys(nodes, InstanceId))
    ensures Distinct(Keys(nodes[1..], InstanceId))
  {
    assert Keys(nodes[1..], InstanceId) == Keys(nodes, InstanceId)[1..];
  }

  lemma NotTheFirst(nodes: seq<NodeInstance>, parent: Option<Uuid>, x: Uuid)
    requires nodes != [] && Distinct(Keys(nodes, InstanceId)) && x in Siblings(nodes[1..], parent)
    ensures x != nodes[0].id
  {
    SiblingAt(nodes[1..], parent, x);
    var j :| 0 <= j < |nodes[1..]| && nodes[1..][j].id == x && nodes[1..][j].batchParent == parent;
    DistinctAny(Keys(nodes, InstanceId), 0, j + 1);
  }

  lemma FirstAdded(x: Uuid, rest: seq<Uuid>)
    requires Distinct(rest) && x !in rest
    ensures Distinct([x] + rest)
  {
    DistinctConcat([x], rest);
  }

  lemma {:induction false} SiblingsDistinct(nodes: seq<NodeInstance>, parent: Option<Uuid>)
    requires Distinct(Keys(nodes, InstanceId))
    ensures Distinct(Siblings(nodes, parent))
  {
    if nodes != [] {
      TailDistinct(nodes);
      SiblingsDistinct(nodes[1..], parent);
      var rest := Siblings(nodes[1..], parent);
      if nodes[0].batchParent == parent {
        forall x | x in rest ensures x != nodes[0].id { NotTheFirst(nodes, parent, x); }
        FirstAdded(nodes[0].id, rest);
      } else {
        assert [] + rest == rest;
      }
    }
  }
}
