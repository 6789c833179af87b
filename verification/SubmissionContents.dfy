/** What the input slots of a node hold once they are completed: the very id, read off the relations, the
    instance and the ids drawn for it. */
module SubmissionContents {
  import opened Basics
  import opened WorkflowModel
  import opened DraftValidation
  import opened Renaming
  import opened Submission

  // ---------------------------------------------------------------- the last relation that feeds a slot

  /** A slot relation that feeds a slot of that name at that node. */
  ghost predicate FeedsSlot(rs: seq<NodeRelation>, id: Uuid, name: string, x: nat, y: nat) {
    x < |rs| && y < |rs[x].slots| && rs[x].toId == id && rs[x].slots[y].toSlot == name
  }

  ghost predicate Unfed(rs: seq<NodeRelation>, id: Uuid, name: string) {
    forall x: nat, y: nat :: !FeedsSlot(rs, id, name, x, y)
  }

  /** It does, and none after it does. */
  ghost predicate LastFeeds(rs: seq<NodeRelation>, id: Uuid, name: string, x: nat, y: nat) {
    && FeedsSlot(rs, id, name, x, y)
    && forall v: nat, w: nat :: FeedsSlot(rs, id, name, v, w) ==> v < x || (v == x && w <= y)
  }

  lemma FeedersCons(rs: seq<NodeRelation>, id: Uuid, name: string)
    requires rs != []
    ensures Feeders(DependenciesOf(rs, id), name) ==
            (if rs[0].toId == id then SlotFeeders(rs[0].fromId, rs[0].slots, name) else [])
            + Feeders(DependenciesOf(rs[1..], id), name)
  {
    var tail := DependenciesOf(rs[1..], id);
    if rs[0].toId == id {
      assert DependenciesOf(rs, id) == [rs[0]] + tail;
      assert ([rs[0]] + tail)[1..] == tail;
    } else {
      assert [] + tail == tail;
      assert [] + Feeders(tail, name) == Feeders(tail, name);
    }
  }

  lemma UnfedHasNone(rs: seq<NodeRelation>, id: Uuid, name: string)
    requires Unfed(rs, id, name)
    ensures Feeders(DependenciesOf(rs, id), name) == []
  {
    var deps := DependenciesOf(rs, id);
    FeedersExist(deps, name);
    forall r | r in deps ensures !Feeds(r, name) {
      var x: nat :| x < |rs| && rs[x] == r;
      forall s | s in r.slots ensures s.toSlot != name {
        var y: nat :| y < |r.slots| && r.slots[y] == s;
        assert !FeedsSlot(rs, id, name, x, y);
      }
    }
  }

  lemma {:induction false} LastOfSlots(fromId: Uuid, ss: seq<SlotRelation>, name: string, y: nat)
    requires y < |ss| && ss[y].toSlot == name && forall w :: y < w < |ss| ==> ss[w].toSlot != name
    ensures var fs := SlotFeeders(fromId, ss, name);
            fs != [] && fs[|fs| - 1] == (fromId, ss[y].fromSlot)
  {
    if y == 0 {
      SlotFeedersAre(fromId, ss[1..], name);
    } else {
      LastOfSlots(fromId, ss[1..], name, y - 1);
    }
  }

  lemma FeedsShift(rs: seq<NodeRelation>, id: Uuid, name: string, x: nat, y: nat)
    requires rs != []
    ensures FeedsSlot(rs[1..], id, name, x, y) <==> FeedsSlot(rs, id, name, x + 1, y)
  {
  }

  lemma TailUnfed(rs: seq<NodeRelation>, id: Uuid, name: string, y: nat)
    requires LastFeeds(rs, id, name, 0, y)
    ensures Unfed(rs[1..], id, name)
  {
    forall v: nat, w: nat ensures !FeedsSlot(rs[1..], id, name, v, w) {
      FeedsShift(rs, id, name, v, w);
    }
  }

  lemma TailLast(rs: seq<NodeRelation>, id: Uuid, name: string, x: nat, y: nat)
    requires x > 0 && LastFeeds(rs, id, name, x, y)
    ensures LastFeeds(rs[1..], id, name, x - 1, y)
  {
    forall v: nat, w: nat | FeedsSlot(rs[1..], id, name, v, w) ensures v < x - 1 || (v == x - 1 && w <= y) {
      assert FeedsSlot(rs, id, name, v + 1, w);
    }
  }

  /** It is the last of the feeders of the slot. */
  lemma {:induction false} LastFeeder(rs: seq<NodeRelation>, id: Uuid, name: string, x: nat, y: nat)
    requires LastFeeds(rs, id, name, x, y)
    ensures var fs := Feeders(DependenciesOf(rs, id), name);
            fs != [] && fs[|fs| - 1] == (rs[x].fromId, rs[x].slots[y].fromSlot)
    decreases |rs|
  {
    FeedersCons(rs, id, name);
    if x == 0 {
      TailUnfed(rs, id, name, y);
      UnfedHasNone(rs[1..], id, name);
      forall w | y < w < |rs[0].slots| ensures rs[0].slots[w].toSlot != name {
        assert !FeedsSlot(rs, id, name, 0, w);
      }
      LastOfSlots(rs[0].fromId, rs[0].slots, name, y);
    } else {
      TailLast(rs, id, name, x, y);
      LastFeeder(rs[1..], id, name, x - 1, y);
    }
  }

  /** A slot that is fed has a last feeder. */
  lemma {:induction false} SomeLast(rs: seq<NodeRelation>, id: Uuid, name: string, n: nat) returns (x: nat, y: nat)
    requires n <= |rs| && !Unfed(rs, id, name)
    requires forall v: nat, w: nat :: FeedsSlot(rs, id, name, v, w) ==> v < n
    ensures LastFeeds(rs, id, name, x, y)
  {
    var last := n - 1;
    if k: nat :| FeedsSlot(rs, id, name, last, k) {
      x := last;
      y := LastIn(rs, id, name, last, k, |rs[last].slots|);
    } else {
      x, y := SomeLast(rs, id, name, last);
    }
  }

  lemma {:induction false} LastIn(rs: seq<NodeRelation>, id: Uuid, name: string, x: nat, k: nat, n: nat)
    returns (y: nat)
    requires k < n && FeedsSlot(rs, id, name, x, k) && forall w: nat :: FeedsSlot(rs, id, name, x, w) ==> w < n
    ensures FeedsSlot(rs, id, name, x, y) && forall w: nat :: FeedsSlot(rs, id, name, x, w) ==> w <= y
  {
    if FeedsSlot(rs, id, name, x, n - 1) { y := n - 1; } else { y := LastIn(rs, id, name, x, k, n - 1); }
  }

  // ---------------------------------------------------------------- what a slot holds

  /** One id and nothing else: the name a file slot expects and its batch flag stay, and so do the
      descriptor and whether it is optional. */
  ghost predicate HoldsId(was: InputSlot, now: InputSlot, id: Uuid) {
    && now.descriptor == was.descriptor && now.optional == was.optional
    && match was.kind
       case TextSlot(_) => now.kind == TextSlot(Some([id]))
       case FileSlot(_, name, batch) => now.kind == FileSlot(Some([FileInput(id, "")]), name, batch)
       case UnknownSlot => false
  }

  /** The upstream slot of a feeder, in an instance. */
  function Upstream(inst: Instance, from: Uuid, name: string): Option<SpecOutput> {
    var n := Find(inst.nodes, SpecId, from);
    if n.None? then None else Find(n.value.outputs, SpecOutName, name)
  }

  /** An upstream slot of the kind of the slot, with a k-th id. */
  ghost predicate Suits(inst: Instance, slot: InputSlot, from: Uuid, name: string, k: nat) {
    var out := Upstream(inst, from, name);
    && out.Some? && k < |out.value.prepared|
    && ((slot.kind.TextSlot? && out.value.kind == TextOut) || (slot.kind.FileSlot? && out.value.kind == FileOut))
  }

  lemma FedOnce(inst: Instance, slot: InputSlot, feeder: Feeder, k: nat)
    ensures var fed := Feed(inst, slot, feeder, k);
            && (fed.Done? <==> Suits(inst, slot, feeder.0, feeder.1, k))
            && (fed.Done? ==> HoldsId(slot, fed.value, Upstream(inst, feeder.0, feeder.1).value.prepared[k]))
  {
  }

  lemma HoldsLater(was: InputSlot, now: InputSlot, last: InputSlot, i: Uuid, j: Uuid)
    requires HoldsId(was, now, i) && HoldsId(now, last, j)
    ensures HoldsId(was, last, j)
  {
  }

  lemma SuitsAlike(inst: Instance, was: InputSlot, now: InputSlot, from: Uuid, name: string, k: nat)
    requires (was.kind.TextSlot? <==> now.kind.TextSlot?) && (was.kind.FileSlot? <==> now.kind.FileSlot?)
    ensures Suits(inst, was, from, name, k) <==> Suits(inst, now, from, name, k)
  {
  }

  /** Feeding a slot works exactly when every feeder suits it; the last one decides. */
  lemma {:induction false} FedAll(inst: Instance, slot: InputSlot, fs: seq<Feeder>, k: nat)
    ensures var fed := FeedAll(inst, slot, fs, k);
            && (fed.Done? <==> forall f :: f in fs ==> Suits(inst, slot, f.0, f.1, k))
            && (fed.Done? && fs == [] ==> fed.value == slot)
            && (fed.Done? && fs != [] ==>
                  var f := fs[|fs| - 1];
                  && Suits(inst, slot, f.0, f.1, k)
                  && HoldsId(slot, fed.value, Upstream(inst, f.0, f.1).value.prepared[k]))
    decreases |fs|
  {
    if fs != [] {
      FedOnce(inst, slot, fs[0], k);
      assert fs == [fs[0]] + fs[1..];
      var once := Feed(inst, slot, fs[0], k);
      if once.Done? {
        FedAll(inst, once.value, fs[1..], k);
        forall f: Feeder ensures Suits(inst, slot, f.0, f.1, k) <==> Suits(inst, once.value, f.0, f.1, k) {
          SuitsAlike(inst, slot, once.value, f.0, f.1, k);
        }
        var all := FeedAll(inst, once.value, fs[1..], k);
        if all.Done? && |fs| > 1 {
          var f := fs[1..][|fs| - 2];
          HoldsLater(slot, once.value, all.value, Upstream(inst, fs[0].0, fs[0].1).value.prepared[k],
                     Upstream(inst, f.0, f.1).value.prepared[k]);
        }
      }
    }
  }

  ghost predicate Fed(inst: Instance, deps: seq<NodeRelation>, slot: InputSlot, k: nat) {
    FeedAll(inst, slot, Feeders(deps, slot.descriptor), k).Done?
  }

  lemma FedNext(inst: Instance, deps: seq<NodeRelation>, slots: seq<InputSlot>, k: nat)
    requires slots != []
    ensures FeedSlots(inst, deps, slots, k).Done? <==>
            Fed(inst, deps, slots[0], k) && FeedSlots(inst, deps, slots[1..], k).Done?
  {
  }

  lemma {:induction false} FedSlots(inst: Instance, deps: seq<NodeRelation>, slots: seq<InputSlot>, k: nat)
    ensures FeedSlots(inst, deps, slots, k).Done? <==> forall s :: s in slots ==> Fed(inst, deps, s, k)
  {
    if slots != [] {
      FedNext(inst, deps, slots, k);
      FedSlots(inst, deps, slots[1..], k);
      assert slots == [slots[0]] + slots[1..];
    }
  }

  lemma {:induction false} FedSlotAt(inst: Instance, deps: seq<NodeRelation>, slots: seq<InputSlot>, k: nat, m: nat)
    requires FeedSlots(inst, deps, slots, k).Done? && m < |slots|
    ensures var fed := FeedSlots(inst, deps, slots, k).value;
            && |fed| == |slots|
            && FeedAll(inst, slots[m], Feeders(deps, slots[m].descriptor), k) == Done(fed[m])
  {
    var rest := FeedSlots(inst, deps, slots[1..], k).value;
    if m > 0 {
      FedSlotAt(inst, deps, slots[1..], k, m - 1);
    } else if |slots| > 1 {
      FedSlotAt(inst, deps, slots[1..], k, 0);
    }
  }

  // ---------------------------------------------------------------- any instance

  ghost function Nth(nth: Option<nat>): nat { if nth.Some? then nth.value else 0 }

  /** What completing the inputs of a node leaves in each slot: the k-th id prepared for the upstream slot
      that feeds it last, or what it held when nothing feeds it. Nothing else of the node changes. */
  lemma CompletedHolds(inst: Instance, node: NodeSpec, nth: Option<nat>, m: nat)
    requires Produce(inst, node, nth).Done? && m < |node.inputs|
    ensures var made := Produce(inst, node, nth).value;
            && made == node.(inputs := made.inputs) && |made.inputs| == |node.inputs|
            && (Unfed(inst.relations, node.id, node.inputs[m].descriptor) ==> made.inputs[m] == node.inputs[m])
            && forall x: nat, y: nat ::
                 LastFeeds(inst.relations, node.id, node.inputs[m].descriptor, x, y) ==>
                   var r := inst.relations[x];
                   && Suits(inst, node.inputs[m], r.fromId, r.slots[y].fromSlot, Nth(nth))
                   && HoldsId(node.inputs[m], made.inputs[m],
                              Upstream(inst, r.fromId, r.slots[y].fromSlot).value.prepared[Nth(nth)])
  {
    var was := node.inputs[m];
    CompletedSlot(inst, node, nth, m);
    var now := Produce(inst, node, nth).value.inputs[m];
    if Unfed(inst.relations, node.id, was.descriptor) {
      UnfedHasNone(inst.relations, node.id, was.descriptor);
      FedAll(inst, was, [], Nth(nth));
    }
    forall x: nat, y: nat | LastFeeds(inst.relations, node.id, was.descriptor, x, y)
      ensures var r := inst.relations[x];
              && Suits(inst, was, r.fromId, r.slots[y].fromSlot, Nth(nth))
              && HoldsId(was, now, Upstream(inst, r.fromId, r.slots[y].fromSlot).value.prepared[Nth(nth)])
    {
      LastHolds(inst, node.id, was, now, Nth(nth), x, y);
    }
  }

  lemma CompletedSlot(inst: Instance, node: NodeSpec, nth: Option<nat>, m: nat)
    requires Produce(inst, node, nth).Done? && m < |node.inputs|
    ensures var made := Produce(inst, node, nth).value;
            var was := node.inputs[m];
            && made == node.(inputs := made.inputs) && |made.inputs| == |node.inputs|
            && FeedAll(inst, was, Feeders(DependenciesOf(inst.relations, node.id), was.descriptor), Nth(nth)) ==
               Done(made.inputs[m])
  {
    FedSlotAt(inst, DependenciesOf(inst.relations, node.id), node.inputs, Nth(nth), m);
  }

  lemma LastHolds(inst: Instance, id: Uuid, was: InputSlot, now: InputSlot, k: nat, x: nat, y: nat)
    requires FeedAll(inst, was, Feeders(DependenciesOf(inst.relations, id), was.descriptor), k) == Done(now)
    requires LastFeeds(inst.relations, id, was.descriptor, x, y)
    ensures var r := inst.relations[x];
            && Suits(inst, was, r.fromId, r.slots[y].fromSlot, k)
            && HoldsId(was, now, Upstream(inst, r.fromId, r.slots[y].fromSlot).value.prepared[k])
  {
    FedAll(inst, was, Feeders(DependenciesOf(inst.relations, id), was.descriptor), k);
    LastFeeder(inst.relations, id, was.descriptor, x, y);
  }

  lemma CompletedFed(inst: Instance, node: NodeSpec, nth: Option<nat>, m: nat, x: nat, y: nat)
    requires Produce(inst, node, nth).Done? && m < |node.inputs|
    requires LastFeeds(inst.relations, node.id, node.inputs[m].descriptor, x, y)
    ensures var made := Produce(inst, node, nth).value;
            var out := Upstream(inst, inst.relations[x].fromId, inst.relations[x].slots[y].fromSlot);
            && |made.inputs| == |node.inputs| && out.Some? && Nth(nth) < |out.value.prepared|
            && HoldsId(node.inputs[m], made.inputs[m], out.value.prepared[Nth(nth)])
  {
    CompletedHolds(inst, node, nth, m);
  }

  lemma {:induction false} AllFeeders(rs: seq<NodeRelation>, name: string, r: NodeRelation, s: SlotRelation)
    requires r in rs && s in r.slots && s.toSlot == name
    ensures (r.fromId, s.fromSlot) in Feeders(rs, name)
  {
    if r == rs[0] {
      SlotFeederIn(r.fromId, r.slots, name, s);
    } else {
      AllFeeders(rs[1..], name, r, s);
    }
  }

  lemma {:induction false} SlotFeederIn(fromId: Uuid, ss: seq<SlotRelation>, name: string, s: SlotRelation)
    requires s in ss && s.toSlot == name
    ensures (fromId, s.fromSlot) in SlotFeeders(fromId, ss, name)
  {
    if s != ss[0] { SlotFeederIn(fromId, ss[1..], name, s); }
  }

  /** Every relation to the node suits the slot it feeds. */
  ghost predicate AllSuit(inst: Instance, node: NodeSpec, slot: InputSlot, k: nat) {
    forall r, s :: r in inst.relations && r.toId == node.id && s in r.slots && s.toSlot == slot.descriptor ==>
      Suits(inst, slot, r.fromId, s.fromSlot, k)
  }

  lemma SlotCompletes(inst: Instance, node: NodeSpec, slot: InputSlot, k: nat)
    ensures var deps := DependenciesOf(inst.relations, node.id);
            FeedAll(inst, slot, Feeders(deps, slot.descriptor), k).Done? <==> AllSuit(inst, node, slot, k)
  {
    var deps := DependenciesOf(inst.relations, node.id);
    var fs := Feeders(deps, slot.descriptor);
    FedAll(inst, slot, fs, k);
    if AllSuit(inst, node, slot, k) {
      forall f | f in fs ensures Suits(inst, slot, f.0, f.1, k) { FeederComesFrom(deps, slot.descriptor, f); }
    }
    if forall f :: f in fs ==> Suits(inst, slot, f.0, f.1, k) {
      forall r, s | r in inst.relations && r.toId == node.id && s in r.slots && s.toSlot == slot.descriptor
        ensures Suits(inst, slot, r.fromId, s.fromSlot, k)
      {
        AllFeeders(deps, slot.descriptor, r, s);
      }
    }
  }

  /** Completing the inputs succeeds exactly when every relation to the node suits the slot it feeds: its
      upstream slot exists, is of the same kind and has an id for the sub-task. */
  lemma CompletesExactly(inst: Instance, node: NodeSpec, nth: Option<nat>)
    ensures Produce(inst, node, nth).Done? <==>
            forall slot :: slot in node.inputs ==> AllSuit(inst, node, slot, Nth(nth))
  {
    FedSlots(inst, DependenciesOf(inst.relations, node.id), node.inputs, Nth(nth));
    forall slot | slot in node.inputs
      ensures Fed(inst, DependenciesOf(inst.relations, node.id), slot, Nth(nth)) <==>
              AllSuit(inst, node, slot, Nth(nth))
    {
      SlotCompletes(inst, node, slot, Nth(nth));
    }
  }

  // ---------------------------------------------------------------- a submission

  /** The i-th node of an instance is the i-th draft node under its fresh id, each output with the one id
      drawn for it. */
  lemma InstanceNode(d: Draft, s: Supply, order: Order, i: nat)
    requires Fits(s, d) && i < |d.nodes|
    ensures var n, draft := Convert(d, s, order).nodes[i], d.nodes[i];
            && n.id == s.nodeIds[i] && n.name == draft.name && n.scheduling == draft.scheduling
            && n.inputs == draft.inputs && |n.outputs| == |draft.outputs|
            && (draft.strategies.None? ==> n.strategies == [])
            && (draft.strategies.Some? ==> n.strategies == draft.strategies.value)
            && forall j :: 0 <= j < |draft.outputs| ==>
                 && n.outputs[j].descriptor == draft.outputs[j].descriptor && n.outputs[j].kind == draft.outputs[j].kind
                 && n.outputs[j].prepared == [s.outIds[i][j]]
  {
  }

  lemma RenamedAt(rs: seq<NodeRelation>, order: Order, x: nat)
    requires x < |rs|
    ensures |RenameAll(rs, order)| == |rs| && RenameAll(rs, order)[x] == Rename(rs[x], order)
  {
    RenamedLength(rs, order);
    if x > 0 { RenamedAt(rs[1..], order, x - 1); }
  }

  lemma {:induction false} RenamedLength(rs: seq<NodeRelation>, order: Order)
    ensures |RenameAll(rs, order)| == |rs|
  {
    if rs != [] { RenamedLength(rs[1..], order); }
  }

  /** What feeds a draft node feeds its instance, by the same positions. */
  lemma SameFeeds(d: Draft, s: Supply, order: Order, i: nat, name: string, x: nat, y: nat)
    requires Fresh(d, s, order) && i < |d.nodes|
    requires forall r :: r in d.relations ==> Find(d.nodes, DraftId, r.toId).Some?
    ensures FeedsSlot(Convert(d, s, order).relations, s.nodeIds[i], name, x, y) <==>
            FeedsSlot(d.relations, d.nodes[i].id, name, x, y)
  {
    RenamedLength(d.relations, order);
    if x < |d.relations| {
      RenamedAt(d.relations, order, x);
      RenamedTo(d, s, order, d.relations[x].toId, i);
    }
  }

  lemma SameLast(d: Draft, s: Supply, order: Order, i: nat, name: string, x: nat, y: nat)
    requires Fresh(d, s, order) && i < |d.nodes|
    requires forall r :: r in d.relations ==> Find(d.nodes, DraftId, r.toId).Some?
    ensures var rs := Convert(d, s, order).relations;
            && (LastFeeds(rs, s.nodeIds[i], name, x, y) <==> LastFeeds(d.relations, d.nodes[i].id, name, x, y))
            && (Unfed(rs, s.nodeIds[i], name) <==> Unfed(d.relations, d.nodes[i].id, name))
  {
    forall v: nat, w: nat
      ensures FeedsSlot(Convert(d, s, order).relations, s.nodeIds[i], name, v, w) <==>
              FeedsSlot(d.relations, d.nodes[i].id, name, v, w)
    {
      SameFeeds(d, s, order, i, name, v, w);
    }
  }

  /** The id drawn for an output slot: the first of that name at the node of that id. */
  ghost predicate DrawnFor(d: Draft, s: Supply, from: Uuid, name: string, id: Uuid)
    requires Fits(s, d)
  {
    exists i, j :: 0 <= i < |d.nodes| && 0 <= j < |d.nodes[i].outputs| && DrawnAt(d, s, from, name, i, j, id)
  }

  ghost predicate DrawnAt(d: Draft, s: Supply, from: Uuid, name: string, i: int, j: int, id: Uuid)
    requires Fits(s, d) && 0 <= i < |d.nodes| && 0 <= j < |d.nodes[i].outputs|
  {
    && d.nodes[i].id == from && d.nodes[i].outputs[j].descriptor == name && s.outIds[i][j] == id
    && forall h :: 0 <= h < j ==> d.nodes[i].outputs[h].descriptor != name
  }

  lemma {:induction false} FirstNamed(outs: seq<DraftOutput>, name: string)
    ensures var j := FindIndex(outs, DraftOutName, name);
            j.Some? ==> forall h :: 0 <= h < j.value ==> outs[h].descriptor != name
  {
    if outs != [] && outs[0].descriptor != name {
      FirstNamed(outs[1..], name);
      assert forall h :: 0 < h < |outs| ==> outs[h] == outs[1..][h - 1];
    }
  }

  lemma UpstreamDrawn(d: Draft, s: Supply, order: Order, from: Uuid, name: string)
    requires Fresh(d, s, order) && Find(d.nodes, DraftId, from).Some?
    requires Upstream(Convert(d, s, order), Rewrite(from, order), name).Some?
    ensures var out := Upstream(Convert(d, s, order), Rewrite(from, order), name).value;
            |out.prepared| == 1 && DrawnFor(d, s, from, name, out.prepared[0])
  {
    var i := FindIndex(d.nodes, DraftId, from).value;
    NodeRenamed(d, s, order, i);
    SpecAt(d, s, order, i);
    OutputAt(d.nodes[i].outputs, s.outIds[i], name);
    FirstNamed(d.nodes[i].outputs, name);
    var j := FindIndex(d.nodes[i].outputs, DraftOutName, name).value;
    assert DrawnAt(d, s, from, name, i, j, s.outIds[i][j]);
  }

  ghost predicate HoldsDrawn(d: Draft, s: Supply, was: InputSlot, now: InputSlot, from: Uuid, name: string)
    requires Fits(s, d)
  {
    exists id :: DrawnFor(d, s, from, name, id) && HoldsId(was, now, id)
  }

  lemma FedHolds(d: Draft, s: Supply, order: Order, i: nat, m: nat, nth: Option<nat>, x: nat, y: nat)
    requires Fresh(d, s, order) && i < |d.nodes| && m < |d.nodes[i].inputs|
    requires forall r :: r in d.relations ==>
               Find(d.nodes, DraftId, r.fromId).Some? && Find(d.nodes, DraftId, r.toId).Some?
    requires Produce(Convert(d, s, order), Convert(d, s, order).nodes[i], nth).Done?
    requires LastFeeds(d.relations, d.nodes[i].id, d.nodes[i].inputs[m].descriptor, x, y)
    ensures var inst := Convert(d, s, order);
            var made := Produce(inst, inst.nodes[i], nth).value;
            && |made.inputs| == |d.nodes[i].inputs|
            && HoldsDrawn(d, s, d.nodes[i].inputs[m], made.inputs[m], d.relations[x].fromId,
                          d.relations[x].slots[y].fromSlot)
  {
    var inst := Convert(d, s, order);
    SameLast(d, s, order, i, d.nodes[i].inputs[m].descriptor, x, y);
    RenamedAt(d.relations, order, x);
    CompletedFed(inst, inst.nodes[i], nth, m, x, y);
    UpstreamHolds(d, s, order, d.nodes[i].inputs[m], Produce(inst, inst.nodes[i], nth).value.inputs[m],
                  d.relations[x].fromId, d.relations[x].slots[y].fromSlot, Nth(nth));
  }

  lemma UpstreamHolds(d: Draft, s: Supply, order: Order, was: InputSlot, now: InputSlot, from: Uuid, name: string,
                      k: nat)
    requires Fresh(d, s, order) && Find(d.nodes, DraftId, from).Some?
    requires var out := Upstream(Convert(d, s, order), Rewrite(from, order), name);
             out.Some? && k < |out.value.prepared| && HoldsId(was, now, out.value.prepared[k])
    ensures HoldsDrawn(d, s, was, now, from, name)
  {
    var out := Upstream(Convert(d, s, order), Rewrite(from, order), name).value;
    UpstreamDrawn(d, s, order, from, name);
    DrawnHolds(d, s, was, now, from, name, out.prepared[k]);
  }

  lemma DrawnHolds(d: Draft, s: Supply, was: InputSlot, now: InputSlot, from: Uuid, name: string, id: Uuid)
    requires Fits(s, d) && DrawnFor(d, s, from, name, id) && HoldsId(was, now, id)
    ensures HoldsDrawn(d, s, was, now, from, name)
  {
  }

  /** The slots of a submitted node once its inputs are completed: a slot that is fed holds the id drawn for
      the upstream slot that feeds it last, and nothing else; a slot that is not fed is the draft's. */
  lemma SubmissionHolds(d: Draft, guard: Guard, uploaded: set<Uuid>, s: Supply, order: Order, i: nat, m: nat,
                        nth: Option<nat>)
    requires Validate(d, guard, uploaded).Done? && Fresh(d, s, order) && i < |d.nodes| && m < |d.nodes[i].inputs|
    requires Produce(Convert(d, s, order), Convert(d, s, order).nodes[i], nth).Done?
    ensures var n := d.nodes[i];
            var was := n.inputs[m];
            var made := Produce(Convert(d, s, order), Convert(d, s, order).nodes[i], nth).value;
            && |made.inputs| == |n.inputs|
            && (Unfed(d.relations, n.id, was.descriptor) ==> made.inputs[m] == was)
            && forall x: nat, y: nat :: LastFeeds(d.relations, n.id, was.descriptor, x, y) ==>
                 HoldsDrawn(d, s, was, made.inputs[m], d.relations[x].fromId, d.relations[x].slots[y].fromSlot)
  {
    var inst := Convert(d, s, order);
    var was := d.nodes[i].inputs[m];
    AcceptedRelations(d, guard, uploaded);
    CompletedHolds(inst, inst.nodes[i], nth, m);
    SameLast(d, s, order, i, was.descriptor, 0, 0);
    forall x: nat, y: nat | LastFeeds(d.relations, d.nodes[i].id, was.descriptor, x, y)
      ensures HoldsDrawn(d, s, was, Produce(inst, inst.nodes[i], nth).value.inputs[m], d.relations[x].fromId,
                         d.relations[x].slots[y].fromSlot)
    {
      FedHolds(d, s, order, i, m, nth, x, y);
    }
  }

  lemma AcceptedRelations(d: Draft, guard: Guard, uploaded: set<Uuid>)
    requires Validate(d, guard, uploaded).Done?
    ensures forall r :: r in d.relations ==>
              Find(d.nodes, DraftId, r.fromId).Some? && Find(d.nodes, DraftId, r.toId).Some?
  {
    ValidateByParts(d, guard, uploaded);
    forall r | r in d.relations
      ensures Find(d.nodes, DraftId, r.fromId).Some? && Find(d.nodes, DraftId, r.toId).Some?
    {
      assert CheckRelation(d, r).Done?;
    }
  }
}
