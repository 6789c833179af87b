/** From an accepted draft to an instance with fresh ids, and from there to node specs whose input
    slots are filled with what their upstream slots will produce. */
module Submission {
  import opened Basics
  import opened WorkflowModel
  import opened DraftValidation
  import opened Renaming

  // ---------------------------------------------------------------- conversion

  /** The fresh ids drawn during a conversion: one per node and one per output slot. */
  datatype Supply = Supply(instanceId: Uuid, nodeIds: seq<Uuid>, outIds: seq<seq<Uuid>>)

  ghost predicate Fits(s: Supply, d: Draft) {
    && |s.nodeIds| == |d.nodes| == |s.outIds|
    && forall i :: 0 <= i < |d.nodes| ==> |s.outIds[i]| == |d.nodes[i].outputs|
  }

  function ToOutputs(outs: seq<DraftOutput>, ids: seq<Uuid>): (specs: seq<SpecOutput>)
    requires |outs| == |ids|
    ensures |specs| == |outs|
  {
    seq(|outs|, j requires 0 <= j < |outs| => SpecOutput(outs[j].descriptor, outs[j].kind, [ids[j]]))
  }

  function ToSpec(n: NodeDraft, id: Uuid, outIds: seq<Uuid>): NodeSpec
    requires |n.outputs| == |outIds|
  {
    NodeSpec(id, n.name, n.inputs, ToOutputs(n.outputs, outIds),
             if n.strategies.Some? then n.strategies.value else [], n.scheduling)
  }

  function IdMap(oldIds: seq<Uuid>, newIds: seq<Uuid>): map<Uuid, Uuid>
    requires |oldIds| == |newIds|
  {
    if oldIds == [] then map[]
    else IdMap(oldIds[..|oldIds| - 1], newIds[..|newIds| - 1])[oldIds[|oldIds| - 1] := newIds[|newIds| - 1]]
  }

  function Rename(r: NodeRelation, order: Order): NodeRelation {
    NodeRelation(Rewrite(r.fromId, order), Rewrite(r.toId, order), r.slots)
  }

  function RenameAll(rs: seq<NodeRelation>, order: Order): seq<NodeRelation> {
    if rs == [] then [] else [Rename(rs[0], order)] + RenameAll(rs[1..], order)
  }

  /** `WorkflowInstance::from`, the id map being listed in the given order. */
  function Convert(d: Draft, s: Supply, order: Order): (inst: Instance)
    requires Fits(s, d)
    ensures |inst.nodes| == |d.nodes|
  {
    Instance(s.instanceId,
             seq(|d.nodes|, i requires 0 <= i < |d.nodes| => ToSpec(d.nodes[i], s.nodeIds[i], s.outIds[i])),
             RenameAll(d.relations, order))
  }

  /** What a submission assumes: distinct draft ids, and fresh ids for the instance. */
  ghost predicate Fresh(d: Draft, s: Supply, order: Order) {
    && Fits(s, d)
    && Distinct(Keys(d.nodes, DraftId))
    && Distinct(s.nodeIds)
    && (forall i, j :: 0 <= i < |d.nodes| && 0 <= j < |s.nodeIds| ==> d.nodes[i].id != s.nodeIds[j])
    && Lists(order, IdMap(Keys(d.nodes, DraftId), s.nodeIds))
  }

  lemma {:induction false} IdMapAt(oldIds: seq<Uuid>, newIds: seq<Uuid>)
    requires |oldIds| == |newIds| && Distinct(oldIds)
    ensures forall i :: 0 <= i < |oldIds| ==>
              oldIds[i] in IdMap(oldIds, newIds) && IdMap(oldIds, newIds)[oldIds[i]] == newIds[i]
    ensures forall x :: x in IdMap(oldIds, newIds) ==> x in oldIds
  {
    if oldIds != [] {
      IdMapAt(oldIds[..|oldIds| - 1], newIds[..|newIds| - 1]);
    }
  }

  /** Under every listing of the id map, the i-th draft id becomes the i-th fresh id. */
  lemma NodeRenamed(d: Draft, s: Supply, order: Order, i: nat)
    requires Fresh(d, s, order) && i < |d.nodes|
    ensures Rewrite(d.nodes[i].id, order) == s.nodeIds[i]
  {
    var olds := Keys(d.nodes, DraftId);
    var m := IdMap(olds, s.nodeIds);
    IdMapAt(olds, s.nodeIds);
    forall y | y in m ensures m[y] !in m {
      var k :| 0 <= k < |olds| && olds[k] == y;
      assert m[y] == s.nodeIds[k];
      assert forall j :: 0 <= j < |olds| ==> olds[j] == d.nodes[j].id;
    }
    assert olds[i] == d.nodes[i].id;
    FreshIdsSettle(m, d.nodes[i].id);
  }

  /** An id of a draft node is renamed to the i-th fresh id exactly when it is the i-th draft id. */
  lemma RenamedTo(d: Draft, s: Supply, order: Order, x: Uuid, i: nat)
    requires Fresh(d, s, order) && i < |d.nodes|
    requires Find(d.nodes, DraftId, x).Some?
    ensures Rewrite(x, order) == s.nodeIds[i] <==> x == d.nodes[i].id
  {
    var j := FindIndex(d.nodes, DraftId, x).value;
    NodeRenamed(d, s, order, j);
    NodeRenamed(d, s, order, i);
  }

  lemma SpecAt(d: Draft, s: Supply, order: Order, i: nat)
    requires Fresh(d, s, order) && i < |d.nodes|
    ensures Find(Convert(d, s, order).nodes, SpecId, s.nodeIds[i]) ==
            Some(ToSpec(d.nodes[i], s.nodeIds[i], s.outIds[i]))
  {
    var nodes := Convert(d, s, order).nodes;
    assert Keys(nodes, SpecId) == s.nodeIds;
    FindUnique(nodes, SpecId, i);
  }

  /** The instance's relation graph is the draft's: what feeds the i-th instance node is what feeds
      the i-th draft node, renamed. */
  lemma {:induction false} Isomorphic(d: Draft, s: Supply, order: Order, rs: seq<NodeRelation>, i: nat)
    requires Fresh(d, s, order) && i < |d.nodes|
    requires forall r :: r in rs ==> Find(d.nodes, DraftId, r.toId).Some?
    ensures DependenciesOf(RenameAll(rs, order), s.nodeIds[i]) == RenameAll(DependenciesOf(rs, d.nodes[i].id), order)
  {
    if rs != [] {
      Isomorphic(d, s, order, rs[1..], i);
      RenamedTo(d, s, order, rs[0].toId, i);
      var tail := DependenciesOf(rs[1..], d.nodes[i].id);
      if rs[0].toId == d.nodes[i].id {
        assert ([rs[0]] + tail)[1..] == tail;
        assert RenameAll([rs[0]] + tail, order) == [Rename(rs[0], order)] + RenameAll(tail, order);
      } else {
        assert [] + tail == tail;
      }
      assert RenameAll(rs, order)[1..] == RenameAll(rs[1..], order);
    }
  }

  // ---------------------------------------------------------------- filling the input slots

  /** An upstream node and one of its output slots. */
  type Feeder = (Uuid, string)

  /** The feeder one relation gives a slot of that name. */
  function HeadFeeder(fromId: Uuid, r: SlotRelation, descriptor: string): seq<Feeder> {
    if r.toSlot == descriptor then [(fromId, r.fromSlot)] else []
  }

  function SlotFeeders(fromId: Uuid, rs: seq<SlotRelation>, descriptor: string): seq<Feeder> {
    if rs == [] then []
    else
      HeadFeeder(fromId, rs[0], descriptor) + SlotFeeders(fromId, rs[1..], descriptor)
  }

  /** All that feeds a slot of that name, in order. */
  function Feeders(rs: seq<NodeRelation>, descriptor: string): seq<Feeder> {
    if rs == [] then [] else SlotFeeders(rs[0].fromId, rs[0].slots, descriptor) + Feeders(rs[1..], descriptor)
  }

  /** A slot holding exactly one prepared id. */
  function SlotWith(slot: InputSlot, id: Uuid): InputSlot {
    match slot.kind
    case TextSlot(_) => slot.(kind := TextSlot(Some([id])))
    case FileSlot(_, name, batch) => slot.(kind := FileSlot(Some([FileInput(id, "")]), name, batch))
    case UnknownSlot => slot
  }

  function Feed(inst: Instance, slot: InputSlot, feeder: Feeder, nth: nat): Outcome<InputSlot, ()> {
    var from :- FindUnwrap(inst.nodes, SpecId, feeder.0);
    var out :- FindUnwrap(from.outputs, SpecOutName, feeder.1);
    match slot.kind
    case UnknownSlot => Failed(())
    case TextSlot(_) =>
      if out.kind != TextOut || nth >= |out.prepared| then Failed(()) else Done(SlotWith(slot, out.prepared[nth]))
    case FileSlot(_, _, _) =>
      if out.kind != FileOut || nth >= |out.prepared| then Failed(()) else Done(SlotWith(slot, out.prepared[nth]))
  }

  function FeedAll(inst: Instance, slot: InputSlot, feeders: seq<Feeder>, nth: nat): Outcome<InputSlot, ()>
    decreases |feeders|
  {
    if feeders == [] then Done(slot)
    else
      var fed :- Feed(inst, slot, feeders[0], nth);
      FeedAll(inst, fed, feeders[1..], nth)
  }

  function FeedSlots(inst: Instance, deps: seq<NodeRelation>, slots: seq<InputSlot>,
                     nth: nat): Outcome<seq<InputSlot>, ()> {
    if slots == [] then Done([])
    else
      var fed :- FeedAll(inst, slots[0], Feeders(deps, slots[0].descriptor), nth);
      var rest :- FeedSlots(inst, deps, slots[1..], nth);
      Done([fed] + rest)
  }

  /** `produce_node_spec_by_complete_node_inputs`. */
  function Produce(inst: Instance, node: NodeSpec, nth: Option<nat>): Outcome<NodeSpec, ()> {
    var slots :- FeedSlots(inst, DependenciesOf(inst.relations, node.id), node.inputs,
                           if nth.Some? then nth.value else 0);
    Done(node.(inputs := slots))
  }

  // ---------------------------------------------------------------- soundness of a submission

  /** The id prepared for an output slot, named by its draft node and its descriptor. */
  function PreparedFor(d: Draft, s: Supply, feeder: Feeder): Option<Uuid>
    requires Fits(s, d)
  {
    var i := FindIndex(d.nodes, DraftId, feeder.0);
    if i.None? then None
    else
      var j := FindIndex(d.nodes[i.value].outputs, DraftOutName, feeder.1);
      if j.None? then None else Some(s.outIds[i.value][j.value])
  }

  /** What the slot of a draft node becomes: itself when nothing feeds it, else one id, the one
      prepared for the last slot that feeds it. */
  function Expected(d: Draft, s: Supply, id: Uuid, slot: InputSlot): InputSlot
    requires Fits(s, d)
  {
    var feeders := Feeders(DependenciesOf(d.relations, id), slot.descriptor);
    if feeders == [] then slot
    else
      var prepared := PreparedFor(d, s, feeders[|feeders| - 1]);
      if prepared.None? then slot else SlotWith(slot, prepared.value)
  }

  /** Some relation feeds a slot of that name at that node. */
  ghost predicate FedAt(d: Draft, id: Uuid, name: string) {
    exists r :: r in d.relations && r.toId == id && WorkflowModel.Feeds(r, name)
  }

  /** Two slots that take the same kind of input. */
  predicate Alike(a: InputSlot, b: InputSlot) {
    (a.kind.TextSlot? <==> b.kind.TextSlot?) && (a.kind.FileSlot? <==> b.kind.FileSlot?)
  }

  /** A slot that is fed is of the kind of the first slot of its name, the one the validation looks at. */
  ghost predicate Agrees(d: Draft, n: NodeDraft, slot: InputSlot) {
    FedAt(d, n.id, slot.descriptor) ==>
      var first := Find(n.inputs, InputName, slot.descriptor);
      first.Some? && Alike(first.value, slot)
  }

  /** A slot and a feeder the validation has accepted as a pair. */
  ghost predicate Paired(d: Draft, n: NodeDraft, slot: InputSlot, feeder: Feeder) {
    var from := Find(d.nodes, DraftId, feeder.0);
    from.Some? && CheckSlotRelation(from.value, n, SlotRelation(feeder.1, slot.descriptor)).Done?
  }

  lemma OutputAt(outs: seq<DraftOutput>, ids: seq<Uuid>, name: string)
    requires |outs| == |ids|
    ensures var j := FindIndex(outs, DraftOutName, name);
            Find(ToOutputs(outs, ids), SpecOutName, name) ==
            if j.None? then None else Some(SpecOutput(name, outs[j.value].kind, [ids[j.value]]))
  {
    if outs != [] {
      OutputAt(outs[1..], ids[1..], name);
      assert ToOutputs(outs, ids)[1..] == ToOutputs(outs[1..], ids[1..]);
    }
  }

  /** Where the upstream slot of an accepted pair sits in the draft. */
  lemma PairPosition(d: Draft, n: NodeDraft, slot: InputSlot, feeder: Feeder) returns (i: nat, j: nat)
    requires Paired(d, n, slot, feeder)
    ensures FindIndex(d.nodes, DraftId, feeder.0) == Some(i)
    ensures FindIndex(d.nodes[i].outputs, DraftOutName, feeder.1) == Some(j)
    ensures Find(n.inputs, InputName, slot.descriptor).Some?
    ensures KindsMatch(d.nodes[i].outputs[j].kind, Find(n.inputs, InputName, slot.descriptor).value.kind)
  {
    i := FindIndex(d.nodes, DraftId, feeder.0).value;
    j := FindIndex(d.nodes[i].outputs, DraftOutName, feeder.1).value;
  }

  /** The upstream slot of an accepted pair, as the instance has it. */
  lemma UpstreamSlot(d: Draft, s: Supply, order: Order, n: NodeDraft, slot: InputSlot, feeder: Feeder)
    returns (out: SpecOutput)
    requires Fresh(d, s, order) && Paired(d, n, slot, feeder)
    ensures |out.prepared| == 1 && PreparedFor(d, s, feeder) == Some(out.prepared[0])
    ensures Find(n.inputs, InputName, slot.descriptor).Some?
    ensures KindsMatch(out.kind, Find(n.inputs, InputName, slot.descriptor).value.kind)
    ensures var from := Find(Convert(d, s, order).nodes, SpecId, Rewrite(feeder.0, order));
            from.Some? && Find(from.value.outputs, SpecOutName, feeder.1) == Some(out)
  {
    var i, j := PairPosition(d, n, slot, feeder);
    NodeRenamed(d, s, order, i);
    SpecAt(d, s, order, i);
    OutputAt(d.nodes[i].outputs, s.outIds[i], feeder.1);
    out := SpecOutput(feeder.1, d.nodes[i].outputs[j].kind, [s.outIds[i][j]]);
  }

  lemma PairedIsKnown(d: Draft, n: NodeDraft, slot: InputSlot, feeder: Feeder)
    requires Paired(d, n, slot, feeder)
    ensures var first := Find(n.inputs, InputName, slot.descriptor);
            first.Some? && !first.value.kind.UnknownSlot?
  {
  }

  /** The slot, but for its contents. */
  ghost predicate SameShape(slot: InputSlot, now: InputSlot) {
    && now.descriptor == slot.descriptor && now.optional == slot.optional
    && match (slot.kind, now.kind)
       case (TextSlot(_), TextSlot(_)) => true
       case (FileSlot(_, name, batch), FileSlot(_, name', batch')) => name == name' && batch == batch'
       case (UnknownSlot, UnknownSlot) => true
       case _ => false
  }

  /** Feeding a slot, whatever it holds by then, with an upstream slot the validation has paired with the
      first slot of its name. */
  lemma FeedPaired(d: Draft, s: Supply, order: Order, n: NodeDraft, slot: InputSlot, now: InputSlot, feeder: Feeder)
    requires Fresh(d, s, order) && Paired(d, n, slot, feeder)
    requires SameShape(slot, now)
    ensures PreparedFor(d, s, feeder).Some? && Find(n.inputs, InputName, slot.descriptor).Some?
    ensures Feed(Convert(d, s, order), now, (Rewrite(feeder.0, order), feeder.1), 0) ==
            if Alike(Find(n.inputs, InputName, slot.descriptor).value, slot)
            then Done(SlotWith(slot, PreparedFor(d, s, feeder).value)) else Failed(())
  {
    PairedIsKnown(d, n, slot, feeder);
    var out := UpstreamSlot(d, s, order, n, slot, feeder);
    if !slot.kind.UnknownSlot? { SlotWithTwice(slot, now, out.prepared[0]); }
  }

  lemma SlotWithTwice(slot: InputSlot, now: InputSlot, id: Uuid)
    requires !slot.kind.UnknownSlot?
    requires SameShape(slot, now)
    ensures SlotWith(now, id) == SlotWith(slot, id)
    ensures SameShape(slot, SlotWith(slot, id))
    ensures HasInput(SlotWith(slot, id))
  {
  }

  function RenameFeeders(fs: seq<Feeder>, order: Order): (r: seq<Feeder>)
    ensures |r| == |fs|
  {
    seq(|fs|, k requires 0 <= k < |fs| => (Rewrite(fs[k].0, order), fs[k].1))
  }

  lemma FeedAllOne(inst: Instance, now: InputSlot, fs: seq<Feeder>)
    requires fs != []
    ensures var fed := Feed(inst, now, fs[0], 0);
            FeedAll(inst, now, fs, 0) == if fed.Done? then FeedAll(inst, fed.value, fs[1..], 0) else fed
  {
  }

  lemma FeedAllRenamed(d: Draft, s: Supply, order: Order, now: InputSlot, fs: seq<Feeder>)
    requires Fits(s, d) && fs != []
    ensures var inst := Convert(d, s, order);
            var fed := Feed(inst, now, (Rewrite(fs[0].0, order), fs[0].1), 0);
            FeedAll(inst, now, RenameFeeders(fs, order), 0) ==
            if fed.Done? then FeedAll(inst, fed.value, RenameFeeders(fs[1..], order), 0) else fed
  {
    assert RenameFeeders(fs, order)[1..] == RenameFeeders(fs[1..], order);
    FeedAllOne(Convert(d, s, order), now, RenameFeeders(fs, order));
  }

  /** What feeding a slot from all of some feeders comes to: the last one decides. */
  function FedBy(d: Draft, s: Supply, n: NodeDraft, slot: InputSlot, now: InputSlot,
                 fs: seq<Feeder>): Outcome<InputSlot, ()>
    requires Fits(s, d)
    requires fs != [] ==> Find(n.inputs, InputName, slot.descriptor).Some? && PreparedFor(d, s, fs[|fs| - 1]).Some?
  {
    if fs == [] then Done(now)
    else if Alike(Find(n.inputs, InputName, slot.descriptor).value, slot) then
      Done(SlotWith(slot, PreparedFor(d, s, fs[|fs| - 1]).value))
    else Failed(())
  }

  lemma {:induction false} FeedAllPaired(d: Draft, s: Supply, order: Order, n: NodeDraft, slot: InputSlot,
                                         now: InputSlot, fs: seq<Feeder>)
    requires Fresh(d, s, order)
    requires forall f :: f in fs ==> Paired(d, n, slot, f)
    requires SameShape(slot, now)
    ensures fs != [] ==> Find(n.inputs, InputName, slot.descriptor).Some? && PreparedFor(d, s, fs[|fs| - 1]).Some?
    ensures FeedAll(Convert(d, s, order), now, RenameFeeders(fs, order), 0) == FedBy(d, s, n, slot, now, fs)
    decreases |fs|, 0
  {
    if fs != [] {
      FeedPaired(d, s, order, n, slot, now, fs[0]);
      FeedPaired(d, s, order, n, slot, now, fs[|fs| - 1]);
      FeedAllRenamed(d, s, order, now, fs);
      if Alike(Find(n.inputs, InputName, slot.descriptor).value, slot) { FeedRest(d, s, order, n, slot, now, fs); }
    }
  }

  /** The feeders after the first, when the first was let in. */
  lemma {:induction false} FeedRest(d: Draft, s: Supply, order: Order, n: NodeDraft, slot: InputSlot,
                                    now: InputSlot, fs: seq<Feeder>)
    requires Fresh(d, s, order) && fs != []
    requires forall f :: f in fs ==> Paired(d, n, slot, f)
    requires SameShape(slot, now) && PreparedFor(d, s, fs[0]).Some? && PreparedFor(d, s, fs[|fs| - 1]).Some?
    requires Find(n.inputs, InputName, slot.descriptor).Some?
    requires Alike(Find(n.inputs, InputName, slot.descriptor).value, slot)
    ensures var next := SlotWith(slot, PreparedFor(d, s, fs[0]).value);
            FeedAll(Convert(d, s, order), next, RenameFeeders(fs[1..], order), 0) == FedBy(d, s, n, slot, now, fs)
    decreases |fs| - 1, 1
  {
    PairedIsKnown(d, n, slot, fs[0]);
    var next := SlotWith(slot, PreparedFor(d, s, fs[0]).value);
    SlotWithTwice(slot, now, PreparedFor(d, s, fs[0]).value);
    FeedAllPaired(d, s, order, n, slot, next, fs[1..]);
  }

  lemma {:induction false} SlotFeedersAre(fromId: Uuid, rs: seq<SlotRelation>, descriptor: string)
    ensures forall f :: f in SlotFeeders(fromId, rs, descriptor) ==>
                          f.0 == fromId && SlotRelation(f.1, descriptor) in rs
    ensures SlotFeeders(fromId, rs, descriptor) != [] <==> exists r :: r in rs && r.toSlot == descriptor
  {
    if rs != [] {
      SlotFeedersAre(fromId, rs[1..], descriptor);
    }
  }

  lemma RenameFeedersConcat(a: seq<Feeder>, b: seq<Feeder>, order: Order)
    ensures RenameFeeders(a + b, order) == RenameFeeders(a, order) + RenameFeeders(b, order)
  {
  }

  lemma HeadRenamed(fromId: Uuid, r: SlotRelation, descriptor: string, order: Order)
    ensures HeadFeeder(Rewrite(fromId, order), r, descriptor) == RenameFeeders(HeadFeeder(fromId, r, descriptor), order)
  {
  }

  lemma {:induction false} SlotFeedersRenamed(fromId: Uuid, rs: seq<SlotRelation>, descriptor: string, order: Order)
    ensures SlotFeeders(Rewrite(fromId, order), rs, descriptor) ==
            RenameFeeders(SlotFeeders(fromId, rs, descriptor), order)
  {
    if rs != [] {
      SlotFeedersRenamed(fromId, rs[1..], descriptor, order);
      HeadRenamed(fromId, rs[0], descriptor, order);
      RenameFeedersConcat(HeadFeeder(fromId, rs[0], descriptor), SlotFeeders(fromId, rs[1..], descriptor), order);
    }
  }

  lemma {:induction false} FeedersRenamed(rs: seq<NodeRelation>, descriptor: string, order: Order)
    ensures Feeders(RenameAll(rs, order), descriptor) == RenameFeeders(Feeders(rs, descriptor), order)
  {
    if rs != [] {
      SlotFeedersRenamed(rs[0].fromId, rs[0].slots, descriptor, order);
      FeedersRenamed(rs[1..], descriptor, order);
      assert RenameAll(rs, order)[0] == Rename(rs[0], order) && RenameAll(rs, order)[1..] == RenameAll(rs[1..], order);
      RenameFeedersConcat(SlotFeeders(rs[0].fromId, rs[0].slots, descriptor), Feeders(rs[1..], descriptor), order);
    }
  }

  lemma {:induction false} FeederComesFrom(rs: seq<NodeRelation>, descriptor: string, f: Feeder)
    requires f in Feeders(rs, descriptor)
    ensures exists r :: r in rs && r.fromId == f.0 && SlotRelation(f.1, descriptor) in r.slots
  {
    if f in SlotFeeders(rs[0].fromId, rs[0].slots, descriptor) {
      SlotFeedersAre(rs[0].fromId, rs[0].slots, descriptor);
      assert rs[0] in rs;
    } else {
      FeederComesFrom(rs[1..], descriptor, f);
      var r :| r in rs[1..] && r.fromId == f.0 && SlotRelation(f.1, descriptor) in r.slots;
      assert r in rs;
    }
  }

  lemma {:induction false} FeedersExist(rs: seq<NodeRelation>, descriptor: string)
    ensures Feeders(rs, descriptor) != [] <==> exists r :: r in rs && WorkflowModel.Feeds(r, descriptor)
  {
    if rs != [] {
      SlotFeedersAre(rs[0].fromId, rs[0].slots, descriptor);
      assert SlotFeeders(rs[0].fromId, rs[0].slots, descriptor) != [] <==> WorkflowModel.Feeds(rs[0], descriptor);
      FeedersExist(rs[1..], descriptor);
      assert forall r :: r in rs <==> r == rs[0] || r in rs[1..];
    }
  }

  lemma FeedersComeFromRelations(rs: seq<NodeRelation>, descriptor: string)
    ensures forall f :: f in Feeders(rs, descriptor) ==>
                          exists r :: r in rs && r.fromId == f.0 && SlotRelation(f.1, descriptor) in r.slots
    ensures Feeders(rs, descriptor) != [] <==> exists r :: r in rs && WorkflowModel.Feeds(r, descriptor)
  {
    FeedersExist(rs, descriptor);
    forall f | f in Feeders(rs, descriptor)
      ensures exists r :: r in rs && r.fromId == f.0 && SlotRelation(f.1, descriptor) in r.slots
    {
      FeederComesFrom(rs, descriptor, f);
    }
  }

  /** Every feeder of a slot of an accepted draft is a pair the validation has checked. */
  lemma AcceptedPairs(d: Draft, guard: Guard, uploaded: set<Uuid>, i: nat, slot: InputSlot)
    requires Validate(d, guard, uploaded).Done? && i < |d.nodes|
    requires Distinct(Keys(d.nodes, DraftId))
    ensures forall f :: f in Feeders(DependenciesOf(d.relations, d.nodes[i].id), slot.descriptor) ==>
                          Paired(d, d.nodes[i], slot, f)
  {
    ValidateByParts(d, guard, uploaded);
    var deps := DependenciesOf(d.relations, d.nodes[i].id);
    FeedersComeFromRelations(deps, slot.descriptor);
    FindUnique(d.nodes, DraftId, i);
    forall f | f in Feeders(deps, slot.descriptor) ensures Paired(d, d.nodes[i], slot, f) {
      var r :| r in deps && r.fromId == f.0 && SlotRelation(f.1, slot.descriptor) in r.slots;
      assert CheckRelation(d, r).Done?;
      SlotRelationsAccepted(Find(d.nodes, DraftId, r.fromId).value, d.nodes[i], r.slots);
    }
  }

  /** What becomes of some slots of a node. */
  ghost function Completed(d: Draft, s: Supply, n: NodeDraft, slots: seq<InputSlot>): Outcome<seq<InputSlot>, ()>
    requires Fits(s, d)
  {
    if forall slot :: slot in slots ==> Agrees(d, n, slot) then Done(ExpectedSlots(d, s, n.id, slots)) else Failed(())
  }

  /** One slot of an accepted draft is fed exactly when it agrees with the first of its name. */
  lemma FeedersFed(d: Draft, id: Uuid, name: string)
    ensures Feeders(DependenciesOf(d.relations, id), name) != [] <==> FedAt(d, id, name)
  {
    FeedersComeFromRelations(DependenciesOf(d.relations, id), name);
  }

  lemma FedByIs(d: Draft, s: Supply, n: NodeDraft, slot: InputSlot)
    requires Fits(s, d)
    requires var fs := Feeders(DependenciesOf(d.relations, n.id), slot.descriptor);
             fs != [] ==>
               Find(n.inputs, InputName, slot.descriptor).Some? && PreparedFor(d, s, fs[|fs| - 1]).Some?
    ensures FedBy(d, s, n, slot, slot, Feeders(DependenciesOf(d.relations, n.id), slot.descriptor)) ==
            if Agrees(d, n, slot) then Done(Expected(d, s, n.id, slot)) else Failed(())
  {
    FeedersFed(d, n.id, slot.descriptor);
  }

  lemma SlotFed(d: Draft, guard: Guard, uploaded: set<Uuid>, s: Supply, order: Order, i: nat, slot: InputSlot)
    requires Validate(d, guard, uploaded).Done? && Fresh(d, s, order) && i < |d.nodes| && slot in d.nodes[i].inputs
    ensures var n := d.nodes[i];
            var deps := RenameAll(DependenciesOf(d.relations, n.id), order);
            FeedAll(Convert(d, s, order), slot, Feeders(deps, slot.descriptor), 0) ==
            if Agrees(d, n, slot) then Done(Expected(d, s, n.id, slot)) else Failed(())
  {
    var n := d.nodes[i];
    var fs := Feeders(DependenciesOf(d.relations, n.id), slot.descriptor);
    AcceptedPairs(d, guard, uploaded, i, slot);
    FeedersRenamed(DependenciesOf(d.relations, n.id), slot.descriptor, order);
    FeedAllPaired(d, s, order, n, slot, slot, fs);
    FedByIs(d, s, n, slot);
  }

  /** One slot after the other, stopping at the first that fails. */
  function Then(fed: Outcome<InputSlot, ()>, rest: Outcome<seq<InputSlot>, ()>): Outcome<seq<InputSlot>, ()> {
    if fed.Failed? then Failed(fed.error)
    else if fed.Panicked? then Panicked
    else if rest.Done? then Done([fed.value] + rest.value) else rest
  }

  lemma FeedSlotsCons(inst: Instance, deps: seq<NodeRelation>, slots: seq<InputSlot>, nth: nat)
    requires slots != []
    ensures FeedSlots(inst, deps, slots, nth) ==
            Then(FeedAll(inst, slots[0], Feeders(deps, slots[0].descriptor), nth),
                 FeedSlots(inst, deps, slots[1..], nth))
  {
  }

  lemma CompletedCons(d: Draft, s: Supply, n: NodeDraft, slots: seq<InputSlot>)
    requires Fits(s, d) && slots != []
    ensures Completed(d, s, n, slots) ==
            Then(if Agrees(d, n, slots[0]) then Done(Expected(d, s, n.id, slots[0])) else Failed(()),
                 Completed(d, s, n, slots[1..]))
  {
    assert slots == [slots[0]] + slots[1..];
    if Agrees(d, n, slots[0]) {
      assert (forall slot :: slot in slots ==> Agrees(d, n, slot)) <==>
             (forall slot :: slot in slots[1..] ==> Agrees(d, n, slot));
    } else {
      assert slots[0] in slots;
    }
  }

  lemma {:induction false} SlotsFed(d: Draft, guard: Guard, uploaded: set<Uuid>, s: Supply, order: Order, i: nat,
                                    slots: seq<InputSlot>)
    requires Validate(d, guard, uploaded).Done? && Fresh(d, s, order)
    requires i < |d.nodes| && forall slot :: slot in slots ==> slot in d.nodes[i].inputs
    ensures var n := d.nodes[i];
            var deps := RenameAll(DependenciesOf(d.relations, n.id), order);
            FeedSlots(Convert(d, s, order), deps, slots, 0) == Completed(d, s, n, slots)
  {
    if slots != [] {
      SlotFed(d, guard, uploaded, s, order, i, slots[0]);
      SlotsFed(d, guard, uploaded, s, order, i, slots[1..]);
      FeedSlotsCons(Convert(d, s, order), RenameAll(DependenciesOf(d.relations, d.nodes[i].id), order), slots, 0);
      CompletedCons(d, s, d.nodes[i], slots);
    }
  }

  function ExpectedSlots(d: Draft, s: Supply, id: Uuid, slots: seq<InputSlot>): (r: seq<InputSlot>)
    requires Fits(s, d)
    ensures |r| == |slots|
    ensures forall j :: 0 <= j < |slots| ==> r[j] == Expected(d, s, id, slots[j])
  {
    if slots == [] then [] else [Expected(d, s, id, slots[0])] + ExpectedSlots(d, s, id, slots[1..])
  }

  /** Completing a node of an accepted draft, whatever the order of the id map: it succeeds exactly when
      every fed slot is of the kind of the first slot of its name, and then each fed slot holds the one id
      prepared upstream and each unfed slot is as the user left it. */
  lemma SubmissionSound(d: Draft, guard: Guard, uploaded: set<Uuid>, s: Supply, order: Order, i: nat)
    requires Validate(d, guard, uploaded).Done? && Fresh(d, s, order) && i < |d.nodes|
    ensures var inst := Convert(d, s, order);
            var n := d.nodes[i];
            Produce(inst, inst.nodes[i], None) ==
            if forall slot :: slot in n.inputs ==> Agrees(d, n, slot)
            then Done(inst.nodes[i].(inputs := ExpectedSlots(d, s, n.id, n.inputs))) else Failed(())
  {
    ValidateByParts(d, guard, uploaded);
    forall r | r in d.relations ensures Find(d.nodes, DraftId, r.toId).Some? { assert CheckRelation(d, r).Done?; }
    Isomorphic(d, s, order, d.relations, i);
    SlotsFed(d, guard, uploaded, s, order, i, d.nodes[i].inputs);
  }

  /** With distinct descriptors in the node, it always succeeds. */
  lemma DistinctAgree(d: Draft, n: NodeDraft)
    requires Distinct(Keys(n.inputs, InputName))
    ensures forall slot :: slot in n.inputs ==> Agrees(d, n, slot)
  {
    forall slot | slot in n.inputs ensures Agrees(d, n, slot) {
      var k :| 0 <= k < |n.inputs| && n.inputs[k] == slot;
      FindUnique(n.inputs, InputName, k);
    }
  }

  // ---------------------------------------------------------------- required slots

  predicate HasInput(slot: InputSlot) {
    InputsCount<()>(slot).Done? && InputsCount<()>(slot).value > 0
  }

  /** Descriptors of input slots are never shared between nodes. */
  ghost predicate UniqueAcrossNodes(d: Draft) {
    forall i, j, a, b ::
      (0 <= i < |d.nodes| && 0 <= j < |d.nodes| && a in d.nodes[i].inputs && b in d.nodes[j].inputs
       && a.descriptor == b.descriptor) ==> i == j
  }

  /** A slot is filled exactly when it came with an input or it is of a known kind and some relation feeds
      it at its own node. */
  lemma FilledExactlyWhen(d: Draft, guard: Guard, uploaded: set<Uuid>, s: Supply, order: Order, i: nat, slot: InputSlot)
    requires Validate(d, guard, uploaded).Done? && Fresh(d, s, order)
    requires i < |d.nodes| && slot in d.nodes[i].inputs
    ensures HasInput(Expected(d, s, d.nodes[i].id, slot)) <==>
            HasInput(slot) || (!slot.kind.UnknownSlot? && FedAt(d, d.nodes[i].id, slot.descriptor))
  {
    var n := d.nodes[i];
    var feeders := Feeders(DependenciesOf(d.relations, n.id), slot.descriptor);
    AcceptedPairs(d, guard, uploaded, i, slot);
    FedIsFeeders(d, n.id, slot.descriptor);
    if feeders != [] {
      LastFeederFills(d, s, order, n, slot, feeders);
    }
  }

  lemma FedIsFeeders(d: Draft, id: Uuid, name: string)
    ensures Feeders(DependenciesOf(d.relations, id), name) != [] <==> FedAt(d, id, name)
  {
    FeedersComeFromRelations(DependenciesOf(d.relations, id), name);
  }

  lemma LastFeederFills(d: Draft, s: Supply, order: Order, n: NodeDraft, slot: InputSlot, feeders: seq<Feeder>)
    requires Fresh(d, s, order) && feeders == Feeders(DependenciesOf(d.relations, n.id), slot.descriptor)
    requires feeders != [] && Paired(d, n, slot, feeders[|feeders| - 1])
    ensures HasInput(Expected(d, s, n.id, slot)) <==> HasInput(slot) || !slot.kind.UnknownSlot?
  {
    var out := UpstreamSlot(d, s, order, n, slot, feeders[|feeders| - 1]);
    assert Expected(d, s, n.id, slot) == SlotWith(slot, out.prepared[0]);
    SlotWithFills(slot, out.prepared[0]);
  }

  lemma SlotWithFills(slot: InputSlot, id: Uuid)
    ensures HasInput(SlotWith(slot, id)) <==> HasInput(slot) || !slot.kind.UnknownSlot?
  {
    if !slot.kind.UnknownSlot? { SlotWithTwice(slot, slot, id); }
  }

  /** With unique descriptors, a relied name is fed at the node that has the slot. */
  lemma ReliedIsOwn(d: Draft, i: nat, slot: InputSlot)
    requires forall x :: x in d.relations ==> CheckRelation(d, x).Done?
    requires UniqueAcrossNodes(d) && i < |d.nodes| && slot in d.nodes[i].inputs
    requires slot.descriptor in ReliedSlots(d.relations)
    ensures FedAt(d, d.nodes[i].id, slot.descriptor)
  {
    ReliedMeaning(d.relations, slot.descriptor);
    var r :| r in d.relations && WorkflowModel.Feeds(r, slot.descriptor);
    FedNodeHasSlot(d, r, slot.descriptor);
    var j := FindIndex(d.nodes, DraftId, r.toId).value;
    assert j == i;
  }

  /** A required slot of an accepted draft ends empty exactly when some relation feeds its name, so that
      the validation did not ask for an input, but none feeds a slot of a known kind here; with
      descriptors unique across nodes a slot of a known kind never does. */
  lemma RequiredSlotsFilled(d: Draft, guard: Guard, uploaded: set<Uuid>, s: Supply, order: Order, i: nat,
                            slot: InputSlot)
    requires Validate(d, guard, uploaded).Done? && Fresh(d, s, order)
    requires i < |d.nodes| && slot in d.nodes[i].inputs && !slot.optional
    ensures !HasInput(Expected(d, s, d.nodes[i].id, slot)) <==>
            && Relied(d, slot.descriptor) && !HasInput(slot)
            && (slot.kind.UnknownSlot? || !FedAt(d, d.nodes[i].id, slot.descriptor))
    ensures UniqueAcrossNodes(d) && !slot.kind.UnknownSlot? ==> HasInput(Expected(d, s, d.nodes[i].id, slot))
  {
    FilledExactlyWhen(d, guard, uploaded, s, order, i, slot);
    ValidateByParts(d, guard, uploaded);
    ReliedMeaning(d.relations, slot.descriptor);
    if slot.descriptor in ReliedSlots(d.relations) {
      if UniqueAcrossNodes(d) { ReliedIsOwn(d, i, slot); }
    } else {
      UnreliedHasInput(d, guard, uploaded, d.nodes[i], slot);
    }
  }

  lemma UnreliedHasInput(d: Draft, guard: Guard, uploaded: set<Uuid>, n: NodeDraft, slot: InputSlot)
    requires CheckNode(d, guard, ReliedSlots(d.relations), uploaded, n).Done?
    requires slot in n.inputs && !slot.optional && slot.descriptor !in ReliedSlots(d.relations)
    ensures HasInput(slot)
  {
    InputsAccepted(ReliedSlots(d.relations), uploaded, n.id, n.inputs);
  }

  /** The node an accepted relation leads to has a slot of every name the relation feeds. */
  lemma FedNodeHasSlot(d: Draft, r: NodeRelation, descriptor: string)
    requires CheckRelation(d, r).Done? && WorkflowModel.Feeds(r, descriptor)
    ensures Find(d.nodes, DraftId, r.fromId).Some?
    ensures var to := Find(d.nodes, DraftId, r.toId);
            to.Some? && Find(to.value.inputs, InputName, descriptor).Some?
  {
    var from, to := Find(d.nodes, DraftId, r.fromId).value, Find(d.nodes, DraftId, r.toId).value;
    SlotRelationsAccepted(from, to, r.slots);
    var sr :| sr in r.slots && sr.toSlot == descriptor;
    assert CheckSlotRelation(from, to, sr).Done?;
  }
}
