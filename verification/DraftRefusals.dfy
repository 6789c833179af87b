/** Which exception a refused draft is turned down with: that of the first thing in it that is not accepted. */
module DraftRefusals {
  import opened Basics
  import opened WorkflowModel
  import opened DraftValidation

  // ---------------------------------------------------------------- relations

  /** What is wrong with a slot relation. */
  ghost predicate JoinFails(from: NodeDraft, to: NodeDraft, r: SlotRelation, e: Exception) {
    var o, i := Find(from.outputs, DraftOutName, r.fromSlot), Find(to.inputs, InputName, r.toSlot);
    match e
    case NoSuchOutputSlot(id, name) =>
      || (o.None? && id == from.id && name == r.fromSlot)
      || (o.Some? && i.None? && id == to.id && name == r.toSlot)
    case ReliedSlotContentsNotEmpty(fromId, fromSlot, toId, toSlot) =>
      && fromId == from.id && fromSlot == r.fromSlot && toId == to.id && toSlot == r.toSlot
      && o.Some? && i.Some? && Given(i.value).Some? && Given(i.value).value > 0
    case MismatchPairedSlot(fromId, fromSlot, toId, toSlot) =>
      && fromId == from.id && fromSlot == r.fromSlot && toId == to.id && toSlot == r.toSlot
      && o.Some? && i.Some? && Given(i.value) == Some(0) && !(o.value.kind.FileOut? <==> i.value.kind.FileSlot?)
    case _ => false
  }

  ghost function JoinFailsWith(from: NodeDraft, to: NodeDraft, e: Exception): SlotRelation -> bool {
    (r: SlotRelation) => JoinFails(from, to, r, e)
  }

  /** What is wrong with a node relation: an end that is missing, or else its first slot relation that is not
      accepted. */
  ghost function LinkFails(d: Draft, e: Exception): NodeRelation -> bool {
    (r: NodeRelation) =>
      var from, to := Find(d.nodes, DraftId, r.fromId), Find(d.nodes, DraftId, r.toId);
      if from.None? then e == NoSuchNode(r.fromId)
      else if to.None? then e == NoSuchNode(r.toId)
      else FirstBad(r.slots, JoinsIn(from.value, to.value), JoinFailsWith(from.value, to.value, e))
  }

  lemma JoinRefused(from: NodeDraft, to: NodeDraft, r: SlotRelation, e: Exception)
    ensures CheckSlotRelation(from, to, r) == Failed(e) <==> JoinFails(from, to, r, e)
  {
    var i := Find(to.inputs, InputName, r.toSlot);
    if i.Some? { CountIsGiven(i.value); }
  }

  lemma {:induction false} JoinsRefused(from: NodeDraft, to: NodeDraft, rs: seq<SlotRelation>, e: Exception)
    ensures CheckSlotRelations(from, to, rs) == Failed(e) <==>
            FirstBad(rs, JoinsIn(from, to), JoinFailsWith(from, to, e))
  {
    if rs != [] {
      JoinsRefused(from, to, rs[1..], e);
      FirstBadCons(rs, JoinsIn(from, to), JoinFailsWith(from, to, e));
      JoinsAccepted(from, to, rs[0]);
      JoinRefused(from, to, rs[0], e);
    }
  }

  lemma LinkRefused(d: Draft, r: NodeRelation, e: Exception)
    ensures CheckRelation(d, r) == Failed(e) <==> LinkFails(d, e)(r)
  {
    var from, to := Find(d.nodes, DraftId, r.fromId), Find(d.nodes, DraftId, r.toId);
    if from.Some? && to.Some? { JoinsRefused(from.value, to.value, r.slots, e); }
  }

  lemma {:induction false} LinksRefused(d: Draft, rs: seq<NodeRelation>, e: Exception)
    ensures CheckRelations(d, rs) == Failed(e) <==> FirstBad(rs, LinkedIn(d), LinkFails(d, e))
  {
    if rs != [] {
      LinksRefused(d, rs[1..], e);
      FirstBadCons(rs, LinkedIn(d), LinkFails(d, e));
      LinkedAccepted(d, rs[0]);
      LinkRefused(d, rs[0], e);
    }
  }

  // ---------------------------------------------------------------- nodes

  /** The first file of a list that was not uploaded. */
  ghost function MissingFile(uploaded: set<Uuid>, id: Uuid): FileInput -> bool {
    (f: FileInput) => f.fileId !in uploaded && f.fileId == id
  }

  ghost function UploadedFile(uploaded: set<Uuid>): FileInput -> bool {
    (f: FileInput) => f.fileId in uploaded
  }

  /** A required slot that no relation names and that was given nothing, or else a file of it that was not
      uploaded. */
  ghost function SlotFails(d: Draft, uploaded: set<Uuid>, n: NodeDraft, e: Exception): InputSlot -> bool {
    (s: InputSlot) =>
      var empty := !Relied(d, s.descriptor) && Given(s) == Some(0) && !s.optional;
      match e
      case NoReliedSlotContentsEmpty(id, name) => empty && id == n.id && name == s.descriptor
      case FileMetadataNotUploaded(fileId, id, name) =>
        && !empty && id == n.id && name == s.descriptor
        && s.kind.FileSlot? && s.kind.fileInputs.Some?
        && FirstBad(s.kind.fileInputs.value, UploadedFile(uploaded), MissingFile(uploaded, fileId))
      case _ => false
  }

  /** What is wrong with the inputs of a batched slot. */
  ghost function StrategyFails(d: Draft, guard: Guard, n: NodeDraft, e: Exception): BatchStrategy -> bool {
    (b: BatchStrategy) =>
      var s := Find(n.inputs, InputName, b.slot);
      s.Some? &&
      match b.kind
      case MatchRegex(_) =>
        Given(s.value).Some? && Given(s.value) != Some(1) && e == NotSingleInputWithMatchRegex(n.id, b.slot)
      case OriginalBatch =>
        Given(s.value).Some? && !Batchable(d, guard, n, b) && e == OriginalBatchInputsLessThanOne(n.id, b.slot)
      case FromBatchOutputs => UpstreamFails(d, n.id, b.slot, e)
  }

  /** What is wrong with the node a batch is to come from. */
  ghost predicate UpstreamFails(d: Draft, id: Uuid, name: string, e: Exception) {
    var r := FirstFeeding(d.relations, name);
    if r.None? then e == NoSuchBatchOutputs(id, name)
    else
      var from := Find(d.nodes, DraftId, r.value.fromId);
      from.Some? &&
      if from.value.strategies.None? || from.value.strategies.value == []
      then e == ReliedNodeIsNotBatched(r.value.fromId, id, name)
      else
        && !BatchedUpstream(d, name)
        && e == ReliedSlotIsNotBatched(r.value.fromId, FirstTo(r.value.slots, name), id, name)
  }

  /** The first input slot of a node that is not accepted; all accepted, a missing cluster; and last the first
      strategy that is not accepted. */
  ghost function NodeFails(d: Draft, guard: Guard, uploaded: set<Uuid>, e: Exception): NodeDraft -> bool {
    (n: NodeDraft) =>
      || FirstBad(n.inputs, SuppliedIn(d, uploaded), SlotFails(d, uploaded, n, e))
      || (&& (forall s :: s in n.inputs ==> Supplied(d, uploaded, s))
          && if !n.scheduling.Auto? && n.scheduling.clusters == [] then e == AtLeastOneCluster
             else n.strategies.Some?
                  && FirstBad(n.strategies.value, BatchableIn(d, guard, n), StrategyFails(d, guard, n, e)))
  }

  lemma {:induction false} FilesRefused(uploaded: set<Uuid>, id: Uuid, name: string, files: seq<FileInput>,
                                        e: Exception)
    ensures CheckFiles(uploaded, id, name, files) == Failed(e) <==>
            && e.FileMetadataNotUploaded? && e.id == id && e.descriptor == name
            && FirstBad(files, UploadedFile(uploaded), MissingFile(uploaded, e.fileId))
  {
    if files != [] {
      FilesRefused(uploaded, id, name, files[1..], e);
      if e.FileMetadataNotUploaded? {
        FirstBadCons(files, UploadedFile(uploaded), MissingFile(uploaded, e.fileId));
      }
    }
  }

  lemma SlotRefused(d: Draft, uploaded: set<Uuid>, n: NodeDraft, s: InputSlot, e: Exception)
    ensures CheckInput(ReliedSlots(d.relations), uploaded, n.id, s) == Failed(e) <==> SlotFails(d, uploaded, n, e)(s)
  {
    ReliedMeaning(d.relations, s.descriptor);
    CountIsGiven(s);
    if s.kind.FileSlot? && s.kind.fileInputs.Some? {
      FilesRefused(uploaded, n.id, s.descriptor, s.kind.fileInputs.value, e);
    }
  }

  lemma {:induction false} SlotsRefused(d: Draft, uploaded: set<Uuid>, n: NodeDraft, slots: seq<InputSlot>,
                                        e: Exception)
    ensures CheckInputs(ReliedSlots(d.relations), uploaded, n.id, slots) == Failed(e) <==>
            FirstBad(slots, SuppliedIn(d, uploaded), SlotFails(d, uploaded, n, e))
  {
    if slots != [] {
      SlotsRefused(d, uploaded, n, slots[1..], e);
      FirstBadCons(slots, SuppliedIn(d, uploaded), SlotFails(d, uploaded, n, e));
      SuppliedAccepted(d, uploaded, n.id, slots[0]);
      SlotRefused(d, uploaded, n, slots[0], e);
    }
  }

  lemma UpstreamRefused(d: Draft, id: Uuid, name: string, e: Exception)
    ensures CheckUpstream(d, id, name) == Failed(e) <==> UpstreamFails(d, id, name, e)
  {
  }

  lemma StrategyRefused(d: Draft, guard: Guard, n: NodeDraft, b: BatchStrategy, e: Exception)
    ensures CheckStrategy(d, guard, n, b) == Failed(e) <==> StrategyFails(d, guard, n, e)(b)
  {
    var s := Find(n.inputs, InputName, b.slot);
    if s.Some? {
      CountIsGiven(s.value);
      UpstreamRefused(d, n.id, b.slot, e);
      BatchableAccepted(d, guard, n, b);
    }
  }

  lemma {:induction false} StrategiesRefused(d: Draft, guard: Guard, n: NodeDraft, bs: seq<BatchStrategy>, e: Exception)
    ensures CheckStrategies(d, guard, n, bs) == Failed(e) <==>
            FirstBad(bs, BatchableIn(d, guard, n), StrategyFails(d, guard, n, e))
  {
    if bs != [] {
      StrategiesRefused(d, guard, n, bs[1..], e);
      FirstBadCons(bs, BatchableIn(d, guard, n), StrategyFails(d, guard, n, e));
      BatchableAccepted(d, guard, n, bs[0]);
      StrategyRefused(d, guard, n, bs[0], e);
    }
  }

  lemma NodeRefused(d: Draft, guard: Guard, uploaded: set<Uuid>, n: NodeDraft, e: Exception)
    ensures CheckNode(d, guard, ReliedSlots(d.relations), uploaded, n) == Failed(e) <==>
            NodeFails(d, guard, uploaded, e)(n)
  {
    SlotsRefused(d, uploaded, n, n.inputs, e);
    AllSupplied(d, uploaded, n.id, n.inputs);
    if n.strategies.Some? { StrategiesRefused(d, guard, n, n.strategies.value, e); }
  }

  lemma {:induction false} NodesRefused(d: Draft, guard: Guard, uploaded: set<Uuid>, ns: seq<NodeDraft>, e: Exception)
    ensures CheckNodes(d, guard, ReliedSlots(d.relations), uploaded, ns) == Failed(e) <==>
            FirstBad(ns, ReadyIn(d, guard, uploaded), NodeFails(d, guard, uploaded, e))
  {
    if ns != [] {
      NodesRefused(d, guard, uploaded, ns[1..], e);
      FirstBadCons(ns, ReadyIn(d, guard, uploaded), NodeFails(d, guard, uploaded, e));
      ReadyAccepted(d, guard, uploaded, ns[0]);
      NodeRefused(d, guard, uploaded, ns[0], e);
    }
  }

  // ---------------------------------------------------------------- the whole

  /** A draft is refused with an exception exactly when the exception says what is wrong with the first
      relation that is not accepted, or, all relations accepted, with the first node that is not. */
  lemma RefusedWith(d: Draft, guard: Guard, uploaded: set<Uuid>, e: Exception)
    ensures Validate(d, guard, uploaded) == Failed(e) <==>
            || FirstBad(d.relations, LinkedIn(d), LinkFails(d, e))
            || (&& (forall r :: r in d.relations ==> Linked(d, r))
                && FirstBad(d.nodes, ReadyIn(d, guard, uploaded), NodeFails(d, guard, uploaded, e)))
  {
    LinksRefused(d, d.relations, e);
    RelationsAccepted(d, d.relations);
    forall r | r in d.relations ensures CheckRelation(d, r).Done? <==> Linked(d, r) { LinkedAccepted(d, r); }
    NodesRefused(d, guard, uploaded, d.nodes, e);
  }
}
