/** What the draft validation guarantees to the batch count, and what it does not. */
module SubmissionBatch {
  import opened Basics
  import opened WorkflowModel
  import opened DraftValidation
  import opened Renaming
  import opened Submission
  import BatchCount
  import NodeInstances

  lemma {:induction false} FirstRenamed(rs: seq<NodeRelation>, order: Order, name: string)
    ensures var r := FirstFeeding(rs, name);
            FirstFeeding(RenameAll(rs, order), name) == if r.None? then None else Some(Rename(r.value, order))
  {
    if rs != [] {
      assert RenameAll(rs, order)[1..] == RenameAll(rs[1..], order);
      FirstRenamed(rs[1..], order, name);
    }
  }

  // ---------------------------------------------------------------- lookups

  /** Every slot that takes its batch from another node is fed at its own node. */
  ghost predicate FedAtOwnNode(d: Draft) {
    forall n, b :: n in d.nodes && n.strategies.Some? && b in n.strategies.value && b.kind == FromBatchOutputs ==>
      FedAt(d, n.id, b.slot)
  }

  /** The ends of every relation of an accepted draft exist. */
  lemma AcceptedEnds(d: Draft, guard: Guard, uploaded: set<Uuid>)
    requires Validate(d, guard, uploaded).Done?
    ensures forall r :: r in d.relations ==>
              Find(d.nodes, DraftId, r.fromId).Some? && Find(d.nodes, DraftId, r.toId).Some?
  {
    ValidateAccepts(d, guard, uploaded);
    forall r | r in d.relations ensures Find(d.nodes, DraftId, r.fromId).Some? && Find(d.nodes, DraftId, r.toId).Some? {
      assert Linked(d, r);
    }
  }

  /** Where the i-th instance node takes the batch of a slot from: where the draft node does, renamed. */
  lemma SourceRenamed(d: Draft, s: Supply, order: Order, i: nat, b: BatchStrategy)
    requires Fresh(d, s, order) && i < |d.nodes|
    requires forall r :: r in d.relations ==> Find(d.nodes, DraftId, r.toId).Some?
    ensures var inst := Convert(d, s, order);
            var r := FirstFeeding(DependenciesOf(d.relations, d.nodes[i].id), b.slot);
            BatchCount.BatchSource(inst, inst.nodes[i], b) ==
            if r.None? then None else Some(Rewrite(r.value.fromId, order))
  {
    Isomorphic(d, s, order, d.relations, i);
    FirstRenamed(DependenciesOf(d.relations, d.nodes[i].id), order, b.slot);
    assert Convert(d, s, order).nodes[i].id == s.nodeIds[i];
  }

  lemma RenamedFound(d: Draft, s: Supply, order: Order, id: Uuid)
    requires Fresh(d, s, order) && Find(d.nodes, DraftId, id).Some?
    ensures Find(Convert(d, s, order).nodes, SpecId, Rewrite(id, order)).Some?
  {
    var k := FindIndex(d.nodes, DraftId, id).value;
    NodeRenamed(d, s, order, k);
    SpecAt(d, s, order, k);
  }

  /** A strategy of an accepted draft resolves exactly when a slot that takes its batch from another node
      is fed at its own. */
  lemma AcceptedStrategy(d: Draft, guard: Guard, uploaded: set<Uuid>, s: Supply, order: Order, i: nat, b: BatchStrategy)
    requires Validate(d, guard, uploaded).Done? && Fresh(d, s, order) && i < |d.nodes|
    requires d.nodes[i].strategies.Some? && b in d.nodes[i].strategies.value
    ensures BatchCount.ResolvedStrategy(Convert(d, s, order), Convert(d, s, order).nodes[i], b) <==>
            (b.kind == FromBatchOutputs ==> FedAt(d, d.nodes[i].id, b.slot))
  {
    var n := d.nodes[i];
    AcceptedEnds(d, guard, uploaded);
    if b.kind == FromBatchOutputs {
      SourceRenamed(d, s, order, i, b);
      var r := FirstFeeding(DependenciesOf(d.relations, n.id), b.slot);
      if r.Some? { RenamedFound(d, s, order, r.value.fromId); }
    } else {
      AcceptedLookup(d, guard, uploaded, n, b);
    }
  }

  lemma AcceptedLookup(d: Draft, guard: Guard, uploaded: set<Uuid>, n: NodeDraft, b: BatchStrategy)
    requires Validate(d, guard, uploaded).Done? && n in d.nodes && n.strategies.Some? && b in n.strategies.value
    ensures b.kind == OriginalBatch ==>
              var slot := Find(n.inputs, InputName, b.slot);
              slot.Some? && InputsCount<()>(slot.value).Done?
  {
    ValidateAccepts(d, guard, uploaded);
    assert Ready(d, guard, uploaded, n) && Batchable(d, guard, n, b);
  }

  /** On an accepted draft the lookups of the batch count succeed exactly when every slot that takes its
      batch from another node is fed at its own. */
  lemma AcceptedResolves(d: Draft, guard: Guard, uploaded: set<Uuid>, s: Supply, order: Order)
    requires Validate(d, guard, uploaded).Done? && Fresh(d, s, order)
    ensures BatchCount.Resolved(Convert(d, s, order)) <==> FedAtOwnNode(d)
  {
    var inst := Convert(d, s, order);
    if FedAtOwnNode(d) {
      forall spec, b | spec in inst.nodes && b in spec.strategies ensures BatchCount.ResolvedStrategy(inst, spec, b) {
        var i :| 0 <= i < |inst.nodes| && inst.nodes[i] == spec;
        assert d.nodes[i] in d.nodes;
        AcceptedStrategy(d, guard, uploaded, s, order, i, b);
      }
    }
    if BatchCount.Resolved(inst) {
      forall n, b | n in d.nodes && n.strategies.Some? && b in n.strategies.value && b.kind == FromBatchOutputs
        ensures FedAt(d, n.id, b.slot)
      {
        var i :| 0 <= i < |d.nodes| && d.nodes[i] == n;
        assert inst.nodes[i] in inst.nodes;
        AcceptedStrategy(d, guard, uploaded, s, order, i, b);
      }
    }
  }

  // ---------------------------------------------------------------- cycles

  /** Draft node `a` takes a batch from draft node `b`. */
  ghost predicate DraftEdge(d: Draft, a: Uuid, b: Uuid) {
    var n := Find(d.nodes, DraftId, a);
    && n.Some? && n.value.strategies.Some?
    && exists s :: s in n.value.strategies.value && s.kind == FromBatchOutputs && DraftSource(d, a, s.slot) == Some(b)
  }

  /** The node a batched slot is fed from: the first that feeds it. */
  function DraftSource(d: Draft, id: Uuid, slot: string): Option<Uuid> {
    var r := FirstFeeding(DependenciesOf(d.relations, id), slot);
    if r.None? then None else Some(r.value.fromId)
  }

  ghost predicate DraftPath(d: Draft, p: seq<Uuid>) {
    p != [] && forall k :: 0 <= k < |p| - 1 ==> DraftEdge(d, p[k], p[k + 1])
  }

  /** No node of the draft takes its batch, through however many others, from itself. */
  ghost predicate DraftAcyclic(d: Draft) {
    forall p :: DraftPath(d, p) && |p| >= 2 ==> p[0] != p[|p| - 1]
  }

  /** The draft id of an instance node. */
  function DraftIdOf(d: Draft, s: Supply, id: Uuid): Uuid
    requires Fits(s, d)
  {
    var i := FindIndex(s.nodeIds, Itself, id);
    if i.Some? then d.nodes[i.value].id else id
  }

  function Itself(id: Uuid): Uuid { id }

  lemma DraftIdAt(d: Draft, s: Supply, order: Order, i: nat)
    requires Fresh(d, s, order) && i < |d.nodes|
    ensures DraftIdOf(d, s, s.nodeIds[i]) == d.nodes[i].id
  {
    var j := FindIndex(s.nodeIds, Itself, s.nodeIds[i]);
    FindUnique(s.nodeIds, Itself, i);
    if j.value != i { DistinctAny(s.nodeIds, i, j.value); }
  }

  /** Every edge between batch sources of the instance is one of the draft's, renamed. */
  lemma EdgeFromDraft(d: Draft, s: Supply, order: Order, a: Uuid, b: Uuid)
    requires Fresh(d, s, order) && BatchCount.Edge(Convert(d, s, order), a, b)
    requires forall r :: r in d.relations ==>
               Find(d.nodes, DraftId, r.fromId).Some? && Find(d.nodes, DraftId, r.toId).Some?
    ensures DraftEdge(d, DraftIdOf(d, s, a), DraftIdOf(d, s, b))
  {
    var inst := Convert(d, s, order);
    var i := FindIndex(inst.nodes, SpecId, a).value;
    assert inst.nodes[i].id == s.nodeIds[i] == a;
    SpecAt(d, s, order, i);
    FindUniqueDraft(d, s, order, i);
    var x :| x in inst.nodes[i].strategies && x.kind == FromBatchOutputs
        && BatchCount.BatchSource(inst, inst.nodes[i], x) == Some(b);
    SourceRenamed(d, s, order, i, x);
    var r := FirstFeeding(DependenciesOf(d.relations, d.nodes[i].id), x.slot).value;
    var j := FindIndex(d.nodes, DraftId, r.fromId).value;
    NodeRenamed(d, s, order, j);
    DraftIdAt(d, s, order, i);
    DraftIdAt(d, s, order, j);
  }

  lemma FindUniqueDraft(d: Draft, s: Supply, order: Order, i: nat)
    requires Fresh(d, s, order) && i < |d.nodes|
    ensures Find(d.nodes, DraftId, d.nodes[i].id) == Some(d.nodes[i])
  {
    FindUnique(d.nodes, DraftId, i);
  }

  /** And every edge of the draft is one of the instance's, renamed. */
  lemma EdgeToInstance(d: Draft, s: Supply, order: Order, a: Uuid, b: Uuid)
    requires Fresh(d, s, order) && DraftEdge(d, a, b)
    requires forall r :: r in d.relations ==> Find(d.nodes, DraftId, r.toId).Some?
    ensures BatchCount.Edge(Convert(d, s, order), Rewrite(a, order), Rewrite(b, order))
  {
    var inst := Convert(d, s, order);
    var i := FindIndex(d.nodes, DraftId, a).value;
    var x :| x in d.nodes[i].strategies.value && x.kind == FromBatchOutputs && DraftSource(d, a, x.slot) == Some(b);
    NodeRenamed(d, s, order, i);
    SpecAt(d, s, order, i);
    SourceRenamed(d, s, order, i, x);
    assert x in inst.nodes[i].strategies;
  }

  /** A cycle of batch sources in the draft is one in the instance, and the other way round. */
  lemma AcyclicFromDraft(d: Draft, guard: Guard, uploaded: set<Uuid>, s: Supply, order: Order)
    requires Validate(d, guard, uploaded).Done? && Fresh(d, s, order)
    ensures BatchCount.Acyclic(Convert(d, s, order)) <==> DraftAcyclic(d)
  {
    AcceptedEnds(d, guard, uploaded);
    if DraftAcyclic(d) { AcyclicInstance(d, s, order); }
    if BatchCount.Acyclic(Convert(d, s, order)) { AcyclicDraft(d, s, order); }
  }

  /** The nodes of a path of the instance, in the draft. */
  function InDraft(d: Draft, s: Supply, p: seq<Uuid>): (q: seq<Uuid>)
    requires Fits(s, d)
    ensures |q| == |p| && forall k :: 0 <= k < |p| ==> q[k] == DraftIdOf(d, s, p[k])
  {
    seq(|p|, k requires 0 <= k < |p| => DraftIdOf(d, s, p[k]))
  }

  /** The nodes of a path of the draft, in the instance. */
  function InInstance(order: Order, p: seq<Uuid>): (q: seq<Uuid>)
    ensures |q| == |p| && forall k :: 0 <= k < |p| ==> q[k] == Rewrite(p[k], order)
  {
    seq(|p|, k requires 0 <= k < |p| => Rewrite(p[k], order))
  }

  lemma PathFromDraft(d: Draft, s: Supply, order: Order, p: seq<Uuid>)
    requires Fresh(d, s, order) && BatchCount.Path(Convert(d, s, order), p)
    requires forall r :: r in d.relations ==>
               Find(d.nodes, DraftId, r.fromId).Some? && Find(d.nodes, DraftId, r.toId).Some?
    ensures DraftPath(d, InDraft(d, s, p))
  {
    var q := InDraft(d, s, p);
    forall k | 0 <= k < |q| - 1 ensures DraftEdge(d, q[k], q[k + 1]) { EdgeFromDraft(d, s, order, p[k], p[k + 1]); }
  }

  lemma PathToInstance(d: Draft, s: Supply, order: Order, p: seq<Uuid>)
    requires Fresh(d, s, order) && DraftPath(d, p)
    requires forall r :: r in d.relations ==> Find(d.nodes, DraftId, r.toId).Some?
    ensures BatchCount.Path(Convert(d, s, order), InInstance(order, p))
  {
    var inst, q := Convert(d, s, order), InInstance(order, p);
    forall k | 0 <= k < |q| - 1 ensures BatchCount.Edge(inst, q[k], q[k + 1]) {
      EdgeToInstance(d, s, order, p[k], p[k + 1]);
    }
  }

  lemma NoLoop(inst: Instance, p: seq<Uuid>)
    requires BatchCount.Acyclic(inst) && BatchCount.Path(inst, p) && |p| >= 2
    ensures p[0] != p[|p| - 1]
  {
  }

  lemma NoDraftLoop(d: Draft, p: seq<Uuid>)
    requires DraftAcyclic(d) && DraftPath(d, p) && |p| >= 2
    ensures p[0] != p[|p| - 1]
  {
  }

  lemma AcyclicInstance(d: Draft, s: Supply, order: Order)
    requires Fresh(d, s, order) && DraftAcyclic(d)
    requires forall r :: r in d.relations ==>
               Find(d.nodes, DraftId, r.fromId).Some? && Find(d.nodes, DraftId, r.toId).Some?
    ensures BatchCount.Acyclic(Convert(d, s, order))
  {
    forall p | BatchCount.Path(Convert(d, s, order), p) && |p| >= 2 ensures p[0] != p[|p| - 1] {
      NoLoopInInstance(d, s, order, p);
    }
  }

  lemma NoLoopInInstance(d: Draft, s: Supply, order: Order, p: seq<Uuid>)
    requires Fresh(d, s, order) && DraftAcyclic(d) && BatchCount.Path(Convert(d, s, order), p) && |p| >= 2
    requires forall r :: r in d.relations ==>
               Find(d.nodes, DraftId, r.fromId).Some? && Find(d.nodes, DraftId, r.toId).Some?
    ensures p[0] != p[|p| - 1]
  {
    PathFromDraft(d, s, order, p);
    NoDraftLoop(d, InDraft(d, s, p));
  }

  lemma AcyclicDraft(d: Draft, s: Supply, order: Order)
    requires Fresh(d, s, order) && BatchCount.Acyclic(Convert(d, s, order))
    requires forall r :: r in d.relations ==> Find(d.nodes, DraftId, r.toId).Some?
    ensures DraftAcyclic(d)
  {
    forall p | DraftPath(d, p) && |p| >= 2 ensures p[0] != p[|p| - 1] {
      NoLoopInDraft(d, s, order, p);
    }
  }

  lemma NoLoopInDraft(d: Draft, s: Supply, order: Order, p: seq<Uuid>)
    requires Fresh(d, s, order) && BatchCount.Acyclic(Convert(d, s, order)) && DraftPath(d, p) && |p| >= 2
    requires forall r :: r in d.relations ==> Find(d.nodes, DraftId, r.toId).Some?
    ensures p[0] != p[|p| - 1]
  {
    PathToInstance(d, s, order, p);
    NoLoop(Convert(d, s, order), InInstance(order, p));
  }

  // ---------------------------------------------------------------- the whole submission

  /** Every count comes back exactly when every lookup resolves and there is no cycle. */
  lemma CountsComeBack(inst: Instance)
    requires Distinct(Keys(inst.nodes, SpecId))
    ensures (forall k :: 0 <= k < |inst.nodes| ==> NodeInstances.SubCount(inst, k).Count?) <==>
            BatchCount.Resolved(inst) && BatchCount.Acyclic(inst)
  {
    if BatchCount.Resolved(inst) && BatchCount.Acyclic(inst) {
      forall k | 0 <= k < |inst.nodes| ensures NodeInstances.SubCount(inst, k).Count? {
        FindUnique(inst.nodes, SpecId, k);
        BatchCount.AcyclicTerminates(inst, inst.nodes[k].id);
      }
    }
    if forall k :: 0 <= k < |inst.nodes| ==> NodeInstances.SubCount(inst, k).Count? {
      CountsResolve(inst);
      CountsAcyclic(inst);
    }
  }

  lemma CountsResolve(inst: Instance)
    requires Distinct(Keys(inst.nodes, SpecId))
    requires forall k :: 0 <= k < |inst.nodes| ==> NodeInstances.SubCount(inst, k).Count?
    ensures BatchCount.Resolved(inst)
  {
    forall n, b | n in inst.nodes && b in n.strategies ensures BatchCount.ResolvedStrategy(inst, n, b) {
      var k :| 0 <= k < |inst.nodes| && inst.nodes[k] == n;
      assert NodeInstances.SubCount(inst, k).Count?;
      FindUnique(inst.nodes, SpecId, k);
      BatchCount.CountResolves(inst, n.id, |inst.nodes|);
    }
  }

  /** A path that comes back to its first node starts at a node without a count. */
  lemma CountedIsNoLoop(inst: Instance, p: seq<Uuid>)
    requires BatchCount.Resolved(inst) && BatchCount.Path(inst, p) && |p| >= 2
    requires BatchCount.SubNodeCount(inst, p[0], |inst.nodes|).Count? && Find(inst.nodes, SpecId, p[0]).Some?
    ensures p[0] != p[|p| - 1]
  {
    BatchCount.TerminatesExactly(inst, p[0]);
    assert p[0] == p[|p| - 1] ==> BatchCount.ReachesCycle(inst, p[0]);
  }

  lemma CountsAcyclic(inst: Instance)
    requires Distinct(Keys(inst.nodes, SpecId)) && BatchCount.Resolved(inst)
    requires forall k :: 0 <= k < |inst.nodes| ==> NodeInstances.SubCount(inst, k).Count?
    ensures BatchCount.Acyclic(inst)
  {
    forall p | BatchCount.Path(inst, p) && |p| >= 2 ensures p[0] != p[|p| - 1] {
      assert BatchCount.Edge(inst, p[0], p[1]);
      var k := FindIndex(inst.nodes, SpecId, p[0]).value;
      assert NodeInstances.SubCount(inst, k).Count?;
      CountedIsNoLoop(inst, p);
    }
  }

  /** No lookup can fail where all resolve, so only a recursion without end is left. */
  lemma ResolvedNeverUnwraps(inst: Instance, draw: NodeInstances.Draw)
    requires Distinct(Keys(inst.nodes, SpecId)) && BatchCount.Resolved(inst)
    ensures !NodeInstances.ParseFrom(inst, 0, draw).Unwraps?
  {
    NodeInstances.ParsesExactly(inst, 0, draw);
    forall k | 0 <= k < |inst.nodes| ensures !NodeInstances.SubCount(inst, k).Stuck? {
      FindUnique(inst.nodes, SpecId, k);
      BatchCount.NeverStuck(inst, inst.nodes[k].id, |inst.nodes|);
    }
  }

  /** Submission end to end: an accepted draft is parsed exactly when every slot that takes its batch from
      another node is fed at its own and no node takes its batch from itself. Then each parent is given
      exactly its sub-node count of sub-instances, in order. Otherwise parsing unwraps nothing, which
      needs a slot fed elsewhere only, or never returns. */
  lemma SubmissionEmits(d: Draft, guard: Guard, uploaded: set<Uuid>, s: Supply, order: Order, draw: NodeInstances.Draw)
    requires Validate(d, guard, uploaded).Done? && Fresh(d, s, order)
    ensures var parsed := NodeInstances.ParseFrom(Convert(d, s, order), 0, draw);
            && (parsed.Parsed? <==> FedAtOwnNode(d) && DraftAcyclic(d))
            && (parsed.Unwraps? ==> !FedAtOwnNode(d))
    ensures var inst := Convert(d, s, order);
            var parsed := NodeInstances.ParseFrom(inst, 0, draw);
            parsed.Parsed? ==>
              forall k :: 0 <= k < |inst.nodes| && inst.nodes[k].strategies != [] ==>
                EmittedAt(inst, parsed.nodes, k, draw)
  {
    var inst := Convert(d, s, order);
    assert Keys(inst.nodes, SpecId) == s.nodeIds;
    AcceptedResolves(d, guard, uploaded, s, order);
    AcyclicFromDraft(d, guard, uploaded, s, order);
    CountsComeBack(inst);
    NodeInstances.ParsesExactly(inst, 0, draw);
    if FedAtOwnNode(d) { ResolvedNeverUnwraps(inst, draw); }
    if NodeInstances.ParseFrom(inst, 0, draw).Parsed? { AllEmitted(inst, draw); }
  }

  /** The sub-instances of the k-th node are as many as its count, with the ids drawn for it in order. */
  ghost predicate EmittedAt(inst: Instance, nodes: seq<NodeInstances.NodeInstance>, k: nat, draw: NodeInstances.Draw)
    requires k < |inst.nodes|
  {
    var count := BatchCount.SubNodeCount(inst, inst.nodes[k].id, |inst.nodes|);
    count.Count? && NodeInstances.Siblings(nodes, Some(inst.nodes[k].id)) == NodeInstances.Drawn(k, count.n, draw)
  }

  lemma AllEmitted(inst: Instance, draw: NodeInstances.Draw)
    requires Distinct(Keys(inst.nodes, SpecId)) && NodeInstances.ParseFrom(inst, 0, draw).Parsed?
    ensures forall k :: 0 <= k < |inst.nodes| && inst.nodes[k].strategies != [] ==>
              EmittedAt(inst, NodeInstances.ParseFrom(inst, 0, draw).nodes, k, draw)
  {
    NodeInstances.ParsesExactly(inst, 0, draw);
    forall k | 0 <= k < |inst.nodes| && inst.nodes[k].strategies != []
      ensures EmittedAt(inst, NodeInstances.ParseFrom(inst, 0, draw).nodes, k, draw)
    {
      assert NodeInstances.SubCount(inst, k).Count?;
      NodeInstances.EmittedPerParent(inst, 0, k, draw);
    }
  }

  // ---------------------------------------------------------------- what the validation lets through

  /** Two nodes share the name of an input slot; a relation feeds it at the second only. */
  function SharedName(): Draft {
    var slot := InputSlot("a", false, TextSlot(Some([])));
    Draft([NodeDraft(1, "n", [slot], [DraftOutput("out", TextOut)], None, Auto),
           NodeDraft(2, "m", [slot], [], None, Auto)],
          [NodeRelation(1, 2, [SlotRelation("out", "a")])])
  }

  /** The names of relied slots are recorded without their node, so this draft is accepted although
      the required slot of its first node is empty and nothing feeds it. */
  lemma SharedNameAccepted(guard: Guard)
    ensures Validate(SharedName(), guard, {}).Done?
    ensures var n := SharedName().nodes[0];
            && !n.inputs[0].optional && !HasInput(n.inputs[0])
            && forall r :: r in SharedName().relations && r.toId == n.id ==> !Feeds(r, "a")
  {
    var d := SharedName();
    ValidateByParts(d, guard, {});
    var slot := d.nodes[0].inputs[0];
    var r := d.relations[0];
    assert CheckRelation(d, r).Done? by {
      assert d.nodes[1..][0] == d.nodes[1];
      assert Find(d.nodes, DraftId, 1) == Some(d.nodes[0]) && Find(d.nodes, DraftId, 2) == Some(d.nodes[1]);
      assert CheckSlotRelation(d.nodes[0], d.nodes[1], r.slots[0]).Done?;
      assert CheckSlotRelations(d.nodes[0], d.nodes[1], r.slots[1..]).Done?;
    }
    var relied := ReliedSlots(d.relations);
    ReliedMeaning(d.relations, "a");
    assert r.slots[0] in r.slots && Feeds(r, "a") && "a" in relied;
    forall n | n in d.nodes ensures CheckNode(d, guard, relied, {}, n).Done? {
      assert n.inputs[1..] == [] && CheckInput(relied, {}, n.id, slot).Done?;
    }
  }

  /** Two nodes that each take their batch from the other. */
  function MutualBatch(): Draft {
    Draft([NodeDraft(1, "n", [InputSlot("x", false, TextSlot(Some([])))], [DraftOutput("x", TextOut)],
                     Some([BatchStrategy("x", FromBatchOutputs)]), Auto),
           NodeDraft(2, "m", [InputSlot("y", false, TextSlot(Some([])))], [DraftOutput("y", TextOut)],
                     Some([BatchStrategy("y", FromBatchOutputs)]), Auto)],
          [NodeRelation(1, 2, [SlotRelation("x", "y")]), NodeRelation(2, 1, [SlotRelation("y", "x")])])
  }

  lemma MutualLookups()
    ensures var d := MutualBatch();
            && Find(d.nodes, DraftId, 1) == Some(d.nodes[0]) && Find(d.nodes, DraftId, 2) == Some(d.nodes[1])
            && !Feeds(d.relations[0], "x") && Feeds(d.relations[0], "y") && Feeds(d.relations[1], "x")
            && FirstFeeding(d.relations, "x") == Some(d.relations[1])
               && FirstFeeding(d.relations, "y") == Some(d.relations[0])
  {
    var d := MutualBatch();
    assert d.nodes[1..][0] == d.nodes[1] && d.relations[1..][0] == d.relations[1];
    assert d.relations[0].slots[0] in d.relations[0].slots && d.relations[1].slots[0] in d.relations[1].slots;
  }

  lemma MutualRelationsAccepted(r: NodeRelation)
    requires r in MutualBatch().relations
    ensures CheckRelation(MutualBatch(), r).Done?
  {
    var d := MutualBatch();
    MutualLookups();
    var from, to := if r.fromId == 1 then d.nodes[0] else d.nodes[1], if r.toId == 1 then d.nodes[0] else d.nodes[1];
    assert CheckSlotRelation(from, to, r.slots[0]).Done? && r.slots[1..] == [];
  }

  lemma MutualNodesAccepted(guard: Guard, n: NodeDraft, relied: seq<string>)
    requires n in MutualBatch().nodes && "x" in relied && "y" in relied
    ensures CheckNode(MutualBatch(), guard, relied, {}, n).Done?
  {
    var d := MutualBatch();
    MutualLookups();
    assert n.inputs[1..] == [] && CheckInput(relied, {}, n.id, n.inputs[0]).Done?;
    assert CheckInputs(relied, {}, n.id, n.inputs).Done?;
    var bs := n.strategies.value;
    assert CheckUpstream(d, n.id, bs[0].slot).Done? by { assert bs[0] in bs; }
    assert CheckStrategy(d, guard, n, bs[0]).Done?;
    assert bs[1..] == [] && CheckStrategies(d, guard, n, bs).Done?;
  }

  /** The validation looks for no cycle: this draft is accepted. */
  lemma MutualBatchAccepted(guard: Guard)
    ensures Validate(MutualBatch(), guard, {}).Done?
  {
    var d := MutualBatch();
    ValidateByParts(d, guard, {});
    MutualLookups();
    var relied := ReliedSlots(d.relations);
    assert d.relations[0] in d.relations && d.relations[1] in d.relations;
    ReliedMeaning(d.relations, "x");
    ReliedMeaning(d.relations, "y");
    assert "x" in relied && "y" in relied;
    forall r | r in d.relations ensures CheckRelation(d, r).Done? { MutualRelationsAccepted(r); }
    forall n | n in d.nodes ensures CheckNode(d, guard, relied, {}, n).Done? { MutualNodesAccepted(guard, n, relied); }
  }

  lemma MutualCycle(s: Supply, order: Order)
    requires Fresh(MutualBatch(), s, order)
    ensures var inst := Convert(MutualBatch(), s, order);
            BatchCount.ReachesCycle(inst, inst.nodes[0].id)
  {
    var inst := Convert(MutualBatch(), s, order);
    MutualEdge(s, order, 0);
    MutualEdge(s, order, 1);
    ThereAndBack(inst, inst.nodes[0].id, inst.nodes[1].id);
  }

  lemma ThereAndBack(inst: Instance, a: Uuid, b: Uuid)
    requires BatchCount.Edge(inst, a, b) && BatchCount.Edge(inst, b, a)
    ensures BatchCount.ReachesCycle(inst, a)
  {
    var p := [a, b, a];
    assert BatchCount.Path(inst, p) && p[0] == p[2];
  }

  lemma MutualFed()
    ensures FedAtOwnNode(MutualBatch())
  {
    var d := MutualBatch();
    MutualLookups();
    assert d.relations[0] in d.relations && d.relations[1] in d.relations;
    assert FedAt(d, 1, "x") && FedAt(d, 2, "y");
  }

  lemma MutualResolves(s: Supply, order: Order)
    requires Fresh(MutualBatch(), s, order)
    ensures BatchCount.Resolved(Convert(MutualBatch(), s, order))
  {
    MutualBatchAccepted(AsDocumented);
    MutualFed();
    AcceptedResolves(MutualBatch(), AsDocumented, {}, s, order);
  }

  /** And its batch count never comes back: the recursion is still going at every depth. */
  lemma MutualBatchDiverges(s: Supply, order: Order, depth: nat)
    requires Fresh(MutualBatch(), s, order)
    ensures var inst := Convert(MutualBatch(), s, order);
            BatchCount.SubNodeCount(inst, inst.nodes[0].id, depth) == BatchCount.TooDeep
  {
    var inst := Convert(MutualBatch(), s, order);
    MutualResolves(s, order);
    SpecAt(MutualBatch(), s, order, 0);
    MutualCycle(s, order);
    BatchCount.TerminatesExactly(inst, inst.nodes[0].id);
    BatchCount.NeverStuck(inst, inst.nodes[0].id, depth);
  }

  lemma MutualDependencies(i: nat)
    requires i < 2
    ensures var d := MutualBatch();
            DependenciesOf(d.relations, d.nodes[i].id) == [d.relations[1 - i]]
  {
    var d := MutualBatch();
    var rest := d.relations[1..];
    assert rest[1..] == [];
    assert DependenciesOf(rest, d.nodes[i].id) == if i == 0 then [rest[0]] else [];
  }

  lemma MutualDraftEdge(i: nat)
    requires i < 2
    ensures var d := MutualBatch();
            DraftEdge(d, d.nodes[i].id, d.nodes[1 - i].id)
  {
    var d := MutualBatch();
    MutualLookups();
    MutualDependencies(i);
    var b := d.nodes[i].strategies.value[0];
    assert DraftSource(d, d.nodes[i].id, b.slot) == Some(d.nodes[1 - i].id);
    assert b in d.nodes[i].strategies.value;
  }

  lemma MutualEdge(s: Supply, order: Order, i: nat)
    requires Fresh(MutualBatch(), s, order) && i < 2
    ensures var inst := Convert(MutualBatch(), s, order);
            BatchCount.Edge(inst, inst.nodes[i].id, inst.nodes[1 - i].id)
  {
    var d := MutualBatch();
    MutualDraftEdge(i);
    MutualBatchAccepted(AsDocumented);
    AcceptedEnds(d, AsDocumented, {});
    EdgeToInstance(d, s, order, d.nodes[i].id, d.nodes[1 - i].id);
    NodeRenamed(d, s, order, i);
    NodeRenamed(d, s, order, 1 - i);
  }

  // ---------------------------------------------------------------- a batch fed elsewhere only

  const SOURCE :=
    NodeDraft(1, "n", [InputSlot("o", false, TextSlot(Some([7])))], [DraftOutput("o", TextOut)],
              Some([BatchStrategy("o", MatchRegex(2))]), Auto)
  const FED :=
    NodeDraft(2, "m", [InputSlot("s", false, TextSlot(Some([])))], [],
              Some([BatchStrategy("s", FromBatchOutputs)]), Auto)
  const UNFED :=
    NodeDraft(3, "k", [InputSlot("s", true, TextSlot(Some([])))], [],
              Some([BatchStrategy("s", FromBatchOutputs)]), Auto)

  /** Two nodes take their batch in a slot of one name; a relation feeds it at the first only. */
  function SharedBatch(): Draft {
    Draft([SOURCE, FED, UNFED], [NodeRelation(1, 2, [SlotRelation("o", "s")])])
  }

  lemma SharedLookups()
    ensures var d := SharedBatch();
            && Find(d.nodes, DraftId, 1) == Some(SOURCE) && Find(d.nodes, DraftId, 2) == Some(FED)
            && Feeds(d.relations[0], "s") && FirstFeeding(d.relations, "s") == Some(d.relations[0])
            && "s" in ReliedSlots(d.relations)
  {
    var d := SharedBatch();
    assert d.nodes[1..][0] == FED;
    assert d.relations[0].slots[0] in d.relations[0].slots;
    assert d.relations[0] in d.relations;
    ReliedMeaning(d.relations, "s");
  }

  lemma SharedRelationAccepted()
    ensures CheckRelation(SharedBatch(), SharedBatch().relations[0]).Done?
  {
    SharedLookups();
    var r := SharedBatch().relations[0];
    assert CheckSlotRelation(SOURCE, FED, r.slots[0]).Done? && r.slots[1..] == [];
  }

  lemma SharedStrategyAccepted(guard: Guard, n: NodeDraft)
    requires n in SharedBatch().nodes
    ensures CheckStrategy(SharedBatch(), guard, n, n.strategies.value[0]).Done?
  {
    SharedLookups();
    if n != SOURCE {
      assert SOURCE.strategies.value[0] in SOURCE.strategies.value;
      assert CheckUpstream(SharedBatch(), n.id, n.strategies.value[0].slot).Done?;
    }
  }

  lemma SharedNodesAccepted(guard: Guard, n: NodeDraft)
    requires n in SharedBatch().nodes
    ensures CheckNode(SharedBatch(), guard, ReliedSlots(SharedBatch().relations), {}, n).Done?
  {
    var relied := ReliedSlots(SharedBatch().relations);
    SharedLookups();
    assert n.inputs[1..] == [] && CheckInput(relied, {}, n.id, n.inputs[0]).Done?;
    SharedStrategyAccepted(guard, n);
    assert n.strategies.value[1..] == [];
  }

  /** The names of relied slots are compared without their node here too, so this draft is accepted. */
  lemma SharedBatchAccepted(guard: Guard)
    ensures Validate(SharedBatch(), guard, {}).Done?
  {
    var d := SharedBatch();
    ValidateByParts(d, guard, {});
    forall r | r in d.relations ensures CheckRelation(d, r).Done? { SharedRelationAccepted(); }
    forall n | n in d.nodes ensures CheckNode(d, guard, ReliedSlots(d.relations), {}, n).Done? {
      SharedNodesAccepted(guard, n);
    }
  }

  lemma SharedSpecs(s: Supply, order: Order)
    requires Fresh(SharedBatch(), s, order)
    ensures var inst := Convert(SharedBatch(), s, order);
            forall k :: 0 <= k < 3 ==>
              && Find(inst.nodes, SpecId, inst.nodes[k].id) == Some(inst.nodes[k])
              && inst.nodes[k].strategies == SharedBatch().nodes[k].strategies.value
  {
    forall k | 0 <= k < 3 { SpecAt(SharedBatch(), s, order, k); }
  }

  /** Where the second and the third node take their batch from. */
  lemma SharedSources(s: Supply, order: Order)
    requires Fresh(SharedBatch(), s, order)
    ensures var inst := Convert(SharedBatch(), s, order);
            && BatchCount.BatchSource(inst, inst.nodes[1], FED.strategies.value[0]) == Some(inst.nodes[0].id)
            && BatchCount.BatchSource(inst, inst.nodes[2], UNFED.strategies.value[0]) == None
  {
    var d := SharedBatch();
    SharedBatchAccepted(AsDocumented);
    AcceptedEnds(d, AsDocumented, {});
    SharedLookups();
    assert DependenciesOf(d.relations, 2) == d.relations && DependenciesOf(d.relations, 3) == [];
    SourceRenamed(d, s, order, 1, FED.strategies.value[0]);
    SourceRenamed(d, s, order, 2, UNFED.strategies.value[0]);
    NodeRenamed(d, s, order, 0);
  }

  lemma SharedFirst(s: Supply, order: Order, depth: nat)
    requires Fresh(SharedBatch(), s, order)
    ensures var inst := Convert(SharedBatch(), s, order);
            BatchCount.SubNodeCount(inst, inst.nodes[0].id, depth) == BatchCount.Count(2)
  {
    var inst := Convert(SharedBatch(), s, order);
    SharedSpecs(s, order);
    BatchCount.OneStrategy(inst, inst.nodes[0], SOURCE.strategies.value[0], depth);
  }

  lemma SharedSecond(s: Supply, order: Order)
    requires Fresh(SharedBatch(), s, order)
    ensures var inst := Convert(SharedBatch(), s, order);
            BatchCount.SubNodeCount(inst, inst.nodes[1].id, 3) == BatchCount.Count(2)
  {
    var inst := Convert(SharedBatch(), s, order);
    SharedSpecs(s, order);
    SharedSources(s, order);
    SharedFirst(s, order, 2);
    BatchCount.OneSource(inst, inst.nodes[1], FED.strategies.value[0], 3);
  }

  lemma SharedThird(s: Supply, order: Order)
    requires Fresh(SharedBatch(), s, order)
    ensures var inst := Convert(SharedBatch(), s, order);
            BatchCount.SubNodeCount(inst, inst.nodes[2].id, 3) == BatchCount.Stuck
  {
    var inst := Convert(SharedBatch(), s, order);
    SharedSpecs(s, order);
    SharedSources(s, order);
    BatchCount.OneSource(inst, inst.nodes[2], UNFED.strategies.value[0], 3);
  }

  lemma SharedCounts(s: Supply, order: Order)
    requires Fresh(SharedBatch(), s, order)
    ensures var inst := Convert(SharedBatch(), s, order);
            && NodeInstances.SubCount(inst, 0) == NodeInstances.SubCount(inst, 1) == BatchCount.Count(2)
            && NodeInstances.SubCount(inst, 2) == BatchCount.Stuck
  {
    SharedSpecs(s, order);
    SharedFirst(s, order, 3);
    SharedSecond(s, order);
    SharedThird(s, order);
  }

  /** And parsing it unwraps the batch source of its third node, which has none. */
  lemma SharedBatchUnwraps(s: Supply, order: Order, draw: NodeInstances.Draw)
    requires Fresh(SharedBatch(), s, order)
    ensures NodeInstances.ParseFrom(Convert(SharedBatch(), s, order), 0, draw) == NodeInstances.Unwraps
  {
    var inst := Convert(SharedBatch(), s, order);
    SharedCounts(s, order);
    assert NodeInstances.ParseFrom(inst, 2, draw) == NodeInstances.Unwraps;
    assert NodeInstances.ParseFrom(inst, 1, draw) == NodeInstances.Unwraps;
  }

  // ---------------------------------------------------------------- a name twice in one node

  const TWICE :=
    NodeDraft(2, "m",
              [InputSlot("a", false, TextSlot(Some([]))), InputSlot("a", false, FileSlot(Some([]), None, false))],
              [], None, Auto)

  /** A node with a text slot and a file slot of one name, fed with a text. */
  function RepeatedName(): Draft {
    Draft([NodeDraft(1, "n", [], [DraftOutput("t", TextOut)], None, Auto), TWICE],
          [NodeRelation(1, 2, [SlotRelation("t", "a")])])
  }

  /** The validation looks at the first slot of the name only, so this draft is accepted, and completing
      its second node fails at the second. */
  lemma RepeatedNameFails(guard: Guard, s: Supply, order: Order)
    requires Fresh(RepeatedName(), s, order)
    ensures Validate(RepeatedName(), guard, {}).Done?
    ensures var inst := Convert(RepeatedName(), s, order);
            Produce(inst, inst.nodes[1], None).Failed?
  {
    RepeatedNameAccepted(guard);
    var d := RepeatedName();
    var slot := TWICE.inputs[1];
    assert d.relations[0].slots[0] in d.relations[0].slots && d.relations[0] in d.relations;
    assert FedAt(d, 2, "a");
    assert slot in TWICE.inputs && !Agrees(d, d.nodes[1], slot);
    SubmissionSound(d, guard, {}, s, order, 1);
  }

  lemma RepeatedRelationAccepted()
    ensures CheckRelation(RepeatedName(), RepeatedName().relations[0]).Done?
  {
    var d := RepeatedName();
    var r := d.relations[0];
    assert d.nodes[1..][0] == TWICE;
    assert CheckSlotRelation(d.nodes[0], TWICE, r.slots[0]).Done? && r.slots[1..] == [];
  }

  lemma RepeatedInputsAccepted()
    ensures CheckInputs(ReliedSlots(RepeatedName().relations), {}, 2, TWICE.inputs).Done?
  {
    var relied := ReliedSlots(RepeatedName().relations);
    var r := RepeatedName().relations[0];
    assert r.slots[0] in r.slots && Feeds(r, "a") && r in RepeatedName().relations;
    ReliedMeaning(RepeatedName().relations, "a");
    assert TWICE.inputs[1..] == [TWICE.inputs[1]] && TWICE.inputs[1..][1..] == [];
    assert CheckInput(relied, {}, 2, TWICE.inputs[0]).Done? && CheckInput(relied, {}, 2, TWICE.inputs[1]).Done?;
    assert CheckInputs(relied, {}, 2, TWICE.inputs[1..]).Done?;
  }

  lemma RepeatedNameAccepted(guard: Guard)
    ensures Validate(RepeatedName(), guard, {}).Done?
  {
    ValidateByParts(RepeatedName(), guard, {});
    RepeatedRelationAccepted();
    RepeatedInputsAccepted();
  }
}
