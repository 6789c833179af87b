/** The loops of draft validation and input completion, each against the function that specifies it. */
module WorkflowLoops {
  import opened Basics
  import opened WorkflowModel
  import V = DraftValidation
  import S = Submission

  // ---------------------------------------------------------------- validate_related_nodes

  /** The inner loop: the slot relations of one node relation. */
  method CheckSlots(from: NodeDraft, to: NodeDraft, rs: seq<SlotRelation>, relied: seq<string>)
    returns (check: V.Check, named: seq<string>)
    ensures check == V.CheckSlotRelations(from, to, rs)
    ensures check.Done? ==> named == relied + V.ToSlots(rs)
  {
    named := relied;
    assert rs[0..] == rs;
    for i := 0 to |rs|
      invariant V.CheckSlotRelations(from, to, rs) == V.CheckSlotRelations(from, to, rs[i..])
      invariant named + V.ToSlots(rs[i..]) == relied + V.ToSlots(rs)
    {
      assert rs[i..][1..] == rs[i + 1..];
      named := named + [rs[i].toSlot];
      var one := V.CheckSlotRelation(from, to, rs[i]);
      if !one.Done? {
        return one, named;
      }
    }
    assert named + [] == named;
    check := Done(());
  }

  lemma RelationStep(d: Draft, rs: seq<NodeRelation>, i: nat)
    requires i < |rs|
    ensures V.CheckRelations(d, rs[i..]) ==
            if V.CheckRelation(d, rs[i]).Done? then V.CheckRelations(d, rs[i + 1..]) else V.CheckRelation(d, rs[i])
    ensures V.ReliedSlots(rs[i..]) == V.ToSlots(rs[i].slots) + V.ReliedSlots(rs[i + 1..])
  {
    assert rs[i..][1..] == rs[i + 1..];
  }

  /** One turn of the outer loop. */
  method CheckRelation(d: Draft, r: NodeRelation, relied: seq<string>) returns (check: V.Check, named: seq<string>)
    ensures check == V.CheckRelation(d, r)
    ensures check.Done? ==> named == relied + V.ToSlots(r.slots)
  {
    named := relied;
    var from := Find(d.nodes, DraftId, r.fromId);
    if from.None? {
      return Failed(V.NoSuchNode(r.fromId)), named;
    }
    var to := Find(d.nodes, DraftId, r.toId);
    if to.None? {
      return Failed(V.NoSuchNode(r.toId)), named;
    }
    check, named := CheckSlots(from.value, to.value, r.slots, relied);
  }

  method CheckRelations(d: Draft, rs: seq<NodeRelation>) returns (check: V.Check, relied: seq<string>)
    ensures check == V.CheckRelations(d, rs)
    ensures check.Done? ==> relied == V.ReliedSlots(rs)
  {
    relied := [];
    ghost var all := V.ReliedSlots(rs);
    assert rs[0..] == rs && [] + all == all;
    for i := 0 to |rs|
      invariant V.CheckRelations(d, rs) == V.CheckRelations(d, rs[i..])
      invariant relied + V.ReliedSlots(rs[i..]) == all
    {
      RelationStep(d, rs, i);
      var one, named := CheckRelation(d, rs[i], relied);
      if !one.Done? {
        return one, named;
      }
      Regroup(relied, V.ToSlots(rs[i].slots), V.ReliedSlots(rs[i + 1..]));
      relied := named;
    }
    assert relied + [] == relied;
    check := Done(());
  }

  lemma Regroup(a: seq<string>, b: seq<string>, c: seq<string>)
    ensures a + (b + c) == a + b + c
  {
  }

  method ValidateRelatedNodes(d: Draft) returns (result: Outcome<seq<string>, V.Exception>)
    ensures result == V.ValidateRelatedNodes(d)
  {
    var check, relied := CheckRelations(d, d.relations);
    result := if check.Done? then Done(relied) else check.PropagateFailure();
  }

  // ---------------------------------------------------------------- validate_per_node

  method CheckContents(uploaded: set<Uuid>, id: Uuid, slot: InputSlot) returns (check: V.Check)
    ensures check == V.CheckContents(uploaded, id, slot)
  {
    match slot.kind
    case FileSlot(inputs, _, _) =>
      if inputs.None? {
        return Panicked;
      }
      var files := inputs.value;
      assert files[0..] == files;
      for i := 0 to |files|
        invariant V.CheckFiles(uploaded, id, slot.descriptor, files) ==
                  V.CheckFiles(uploaded, id, slot.descriptor, files[i..])
      {
        assert files[i..][1..] == files[i + 1..];
        if files[i].fileId !in uploaded {
          return Failed(V.FileMetadataNotUploaded(files[i].fileId, id, slot.descriptor));
        }
      }
      check := Done(());
    case _ =>
      check := Done(());
  }

  method CheckInputs(relied: seq<string>, uploaded: set<Uuid>, id: Uuid, slots: seq<InputSlot>) returns (check: V.Check)
    ensures check == V.CheckInputs(relied, uploaded, id, slots)
  {
    assert slots[0..] == slots;
    for i := 0 to |slots|
      invariant V.CheckInputs(relied, uploaded, id, slots) == V.CheckInputs(relied, uploaded, id, slots[i..])
    {
      assert slots[i..][1..] == slots[i + 1..];
      var slot := slots[i];
      if slot.descriptor !in relied {
        var count := InputsCount<V.Exception>(slot);
        if !count.Done? {
          return count.PropagateFailure();
        }
        if count.value < 1 && !slot.optional {
          return Failed(V.NoReliedSlotContentsEmpty(id, slot.descriptor));
        }
      }
      var contents := CheckContents(uploaded, id, slot);
      if !contents.Done? {
        return contents;
      }
    }
    check := Done(());
  }

  method CheckStrategies(d: Draft, guard: V.Guard, n: NodeDraft, bs: seq<BatchStrategy>) returns (check: V.Check)
    ensures check == V.CheckStrategies(d, guard, n, bs)
  {
    assert bs[0..] == bs;
    for i := 0 to |bs|
      invariant V.CheckStrategies(d, guard, n, bs) == V.CheckStrategies(d, guard, n, bs[i..])
    {
      assert bs[i..][1..] == bs[i + 1..];
      var one := V.CheckStrategy(d, guard, n, bs[i]);
      if !one.Done? {
        return one;
      }
    }
    check := Done(());
  }

  method ValidatePerNode(d: Draft, guard: V.Guard, relied: seq<string>, uploaded: set<Uuid>) returns (check: V.Check)
    ensures check == V.CheckNodes(d, guard, relied, uploaded, d.nodes)
  {
    var ns := d.nodes;
    assert ns[0..] == ns;
    for i := 0 to |ns|
      invariant V.CheckNodes(d, guard, relied, uploaded, ns) == V.CheckNodes(d, guard, relied, uploaded, ns[i..])
    {
      assert ns[i..][1..] == ns[i + 1..];
      var inputs := CheckInputs(relied, uploaded, ns[i].id, ns[i].inputs);
      if !inputs.Done? {
        return inputs;
      }
      if !V.HasCluster(ns[i].scheduling) {
        return Failed(V.AtLeastOneCluster);
      }
      if ns[i].strategies.None? {
        continue;
      }
      var strategies := CheckStrategies(d, guard, ns[i], ns[i].strategies.value);
      if !strategies.Done? {
        return strategies;
      }
    }
    check := Done(());
  }

  /** `validate_workflow_draft`. */
  method ValidateDraft(d: Draft, guard: V.Guard, uploaded: set<Uuid>) returns (check: V.Check)
    ensures check == V.Validate(d, guard, uploaded)
  {
    var relied := ValidateRelatedNodes(d);
    if !relied.Done? {
      return relied.PropagateFailure();
    }
    check := ValidatePerNode(d, guard, relied.value, uploaded);
  }

  // ---------------------------------------------------------------- completing the inputs of a node

  /** The innermost loop: the slot relations of one upstream node. */
  method FeedFrom(inst: Instance, slot: InputSlot, fromId: Uuid, rs: seq<SlotRelation>, nth: nat)
    returns (fed: Outcome<InputSlot, ()>)
    ensures fed == S.FeedAll(inst, slot, S.SlotFeeders(fromId, rs, slot.descriptor), nth)
  {
    var current := slot;
    assert rs[0..] == rs;
    ghost var name := slot.descriptor;
    for i := 0 to |rs|
      invariant current.descriptor == name
      invariant S.FeedAll(inst, slot, S.SlotFeeders(fromId, rs, name), nth)
                == S.FeedAll(inst, current, S.SlotFeeders(fromId, rs[i..], name), nth)
    {
      assert rs[i..][1..] == rs[i + 1..];
      ghost var rest := S.SlotFeeders(fromId, rs[i + 1..], name);
      if rs[i].toSlot == current.descriptor {
        assert ([(fromId, rs[i].fromSlot)] + rest)[1..] == rest;
        var one := S.Feed(inst, current, (fromId, rs[i].fromSlot), nth);
        if !one.Done? {
          return one;
        }
        current := one.value;
      } else {
        assert [] + rest == rest;
      }
    }
    fed := Done(current);
  }

  lemma {:induction false} FeedAllConcat(inst: Instance, slot: InputSlot, a: seq<S.Feeder>, b: seq<S.Feeder>, nth: nat)
    ensures S.FeedAll(inst, slot, a + b, nth) ==
            var front := S.FeedAll(inst, slot, a, nth);
            if front.Done? then S.FeedAll(inst, front.value, b, nth) else front
    decreases |a|
  {
    if a == [] {
      assert a + b == b;
    } else {
      assert (a + b)[1..] == a[1..] + b;
      var one := S.Feed(inst, slot, a[0], nth);
      if one.Done? { FeedAllConcat(inst, one.value, a[1..], b, nth); }
    }
  }

  lemma {:induction false} FeedAllKeepsName(inst: Instance, slot: InputSlot, fs: seq<S.Feeder>, nth: nat)
    ensures var fed := S.FeedAll(inst, slot, fs, nth);
            fed.Done? ==> fed.value.descriptor == slot.descriptor
    decreases |fs|
  {
    if fs != [] {
      var one := S.Feed(inst, slot, fs[0], nth);
      if one.Done? { FeedAllKeepsName(inst, one.value, fs[1..], nth); }
    }
  }

  method FeedSlot(inst: Instance, deps: seq<NodeRelation>, slot: InputSlot, nth: nat)
    returns (fed: Outcome<InputSlot, ()>)
    ensures fed == S.FeedAll(inst, slot, S.Feeders(deps, slot.descriptor), nth)
  {
    var current := slot;
    assert deps[0..] == deps;
    ghost var name := slot.descriptor;
    for i := 0 to |deps|
      invariant current.descriptor == name
      invariant S.FeedAll(inst, slot, S.Feeders(deps, name), nth) ==
                S.FeedAll(inst, current, S.Feeders(deps[i..], name), nth)
    {
      assert deps[i..][1..] == deps[i + 1..];
      ghost var own := S.SlotFeeders(deps[i].fromId, deps[i].slots, name);
      FeedAllConcat(inst, current, own, S.Feeders(deps[i + 1..], name), nth);
      FeedAllKeepsName(inst, current, own, nth);
      var one := FeedFrom(inst, current, deps[i].fromId, deps[i].slots, nth);
      if !one.Done? {
        return one;
      }
      current := one.value;
    }
    fed := Done(current);
  }

  ghost function Prefixed(done: seq<InputSlot>, rest: Outcome<seq<InputSlot>, ()>): Outcome<seq<InputSlot>, ()> {
    if rest.Done? then Done(done + rest.value) else rest
  }

  lemma FeedSlotsStep(inst: Instance, deps: seq<NodeRelation>, slots: seq<InputSlot>, i: nat, nth: nat,
                      front: seq<InputSlot>)
    requires i < |slots|
    ensures var fed := S.FeedAll(inst, slots[i], S.Feeders(deps, slots[i].descriptor), nth);
            Prefixed(front, S.FeedSlots(inst, deps, slots[i..], nth)) ==
            if fed.Done? then Prefixed(front + [fed.value], S.FeedSlots(inst, deps, slots[i + 1..], nth))
            else fed.PropagateFailure()
  {
    assert slots[i..][1..] == slots[i + 1..];
    var fed := S.FeedAll(inst, slots[i], S.Feeders(deps, slots[i].descriptor), nth);
    var rest := S.FeedSlots(inst, deps, slots[i + 1..], nth);
    if fed.Done? && rest.Done? { assert front + ([fed.value] + rest.value) == front + [fed.value] + rest.value; }
  }

  /** `produce_node_spec_by_complete_node_inputs`. */
  method ProduceNodeSpec(inst: Instance, node: NodeSpec, nth: Option<nat>) returns (produced: Outcome<NodeSpec, ()>)
    ensures produced == S.Produce(inst, node, nth)
  {
    var index := if nth.Some? then nth.value else 0;
    var deps := DependenciesOf(inst.relations, node.id);
    var slots: seq<InputSlot> := [];
    ghost var all := S.FeedSlots(inst, deps, node.inputs, index);
    assert node.inputs[0..] == node.inputs && (all.Done? ==> [] + all.value == all.value);
    for i := 0 to |node.inputs|
      invariant all == Prefixed(slots, S.FeedSlots(inst, deps, node.inputs[i..], index))
    {
      FeedSlotsStep(inst, deps, node.inputs, i, index, slots);
      var fed := FeedSlot(inst, deps, node.inputs[i], index);
      if !fed.Done? {
        return fed.PropagateFailure();
      }
      slots := slots + [fed.value];
    }
    assert slots + [] == slots;
    produced := Done(node.(inputs := slots));
  }
}
