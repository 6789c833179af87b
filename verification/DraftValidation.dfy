/** What a workflow draft must satisfy before it is submitted. */
module DraftValidation {
  import opened Basics
  import opened WorkflowModel

  datatype Exception = NoSuchNode(id: Uuid)
                     | NoSuchOutputSlot(id: Uuid, descriptor: string)
                     | ReliedSlotContentsNotEmpty(fromId: Uuid, fromSlot: string, toId: Uuid, toSlot: string)
                     | MismatchPairedSlot(fromId: Uuid, fromSlot: string, toId: Uuid, toSlot: string)
                     | NoReliedSlotContentsEmpty(id: Uuid, descriptor: string)
                     | FileMetadataNotUploaded(fileId: Uuid, id: Uuid, descriptor: string)
                     | AtLeastOneCluster
                     | NotSingleInputWithMatchRegex(id: Uuid, descriptor: string)
                     | OriginalBatchInputsLessThanOne(id: Uuid, descriptor: string)
                     | NoSuchBatchOutputs(id: Uuid, descriptor: string)
                     | ReliedNodeIsNotBatched(fromId: Uuid, id: Uuid, descriptor: string)
                     | ReliedSlotIsNotBatched(fromId: Uuid, fromSlot: string, id: Uuid, descriptor: string)

  type Check = Outcome<(), Exception>

  // ---------------------------------------------------------------- relations

  predicate KindsMatch(from: OutKind, to: SlotKind) {
    match from
    case FileOut => !to.TextSlot?
    case TextOut => !to.FileSlot?
  }

  function CheckSlotRelation(from: NodeDraft, to: NodeDraft, r: SlotRelation): Check {
    var fromSlot :- FindOr(from.outputs, DraftOutName, r.fromSlot, NoSuchOutputSlot(from.id, r.fromSlot));
    var toSlot :- FindOr(to.inputs, InputName, r.toSlot, NoSuchOutputSlot(to.id, r.toSlot));
    var count :- InputsCount(toSlot);
    if count != 0 then Failed(ReliedSlotContentsNotEmpty(from.id, r.fromSlot, to.id, r.toSlot))
    else if !KindsMatch(fromSlot.kind, toSlot.kind) then
      Failed(MismatchPairedSlot(from.id, r.fromSlot, to.id, r.toSlot))
    else Done(())
  }

  function CheckSlotRelations(from: NodeDraft, to: NodeDraft, rs: seq<SlotRelation>): Check {
    if rs == [] then Done(())
    else
      var _ :- CheckSlotRelation(from, to, rs[0]);
      CheckSlotRelations(from, to, rs[1..])
  }

  function CheckRelation(d: Draft, r: NodeRelation): Check {
    var from :- FindOr(d.nodes, DraftId, r.fromId, NoSuchNode(r.fromId));
    var to :- FindOr(d.nodes, DraftId, r.toId, NoSuchNode(r.toId));
    CheckSlotRelations(from, to, r.slots)
  }

  function CheckRelations(d: Draft, rs: seq<NodeRelation>): Check {
    if rs == [] then Done(())
    else
      var _ :- CheckRelation(d, rs[0]);
      CheckRelations(d, rs[1..])
  }

  /** The names of all slots some relation feeds. The node they belong to is not recorded. */
  function ReliedSlots(rs: seq<NodeRelation>): seq<string> {
    if rs == [] then [] else ToSlots(rs[0].slots) + ReliedSlots(rs[1..])
  }

  function ToSlots(rs: seq<SlotRelation>): seq<string> {
    if rs == [] then [] else [rs[0].toSlot] + ToSlots(rs[1..])
  }

  lemma {:induction false} ToSlotsMeaning(rs: seq<SlotRelation>, name: string)
    ensures name in ToSlots(rs) <==> exists s :: s in rs && s.toSlot == name
  {
    if rs != [] { ToSlotsMeaning(rs[1..], name); }
  }

  lemma {:induction false} ReliedMeaning(rs: seq<NodeRelation>, name: string)
    ensures name in ReliedSlots(rs) <==> exists r :: r in rs && Feeds(r, name)
  {
    if rs != [] {
      ToSlotsMeaning(rs[0].slots, name);
      ReliedMeaning(rs[1..], name);
      assert (exists r :: r in rs && Feeds(r, name)) <==>
             Feeds(rs[0], name) || exists r :: r in rs[1..] && Feeds(r, name);
    }
  }

  function ValidateRelatedNodes(d: Draft): Outcome<seq<string>, Exception> {
    var _ :- CheckRelations(d, d.relations);
    Done(ReliedSlots(d.relations))
  }

  // ---------------------------------------------------------------- single nodes

  function CheckFiles(uploaded: set<Uuid>, id: Uuid, descriptor: string, files: seq<FileInput>): Check {
    if files == [] then Done(())
    else if files[0].fileId !in uploaded then Failed(FileMetadataNotUploaded(files[0].fileId, id, descriptor))
    else CheckFiles(uploaded, id, descriptor, files[1..])
  }

  function CheckContents(uploaded: set<Uuid>, id: Uuid, slot: InputSlot): Check {
    match slot.kind
    case FileSlot(inputs, _, _) =>
      if inputs.None? then Panicked else CheckFiles(uploaded, id, slot.descriptor, inputs.value)
    case _ => Done(())
  }

  function CheckInput(relied: seq<string>, uploaded: set<Uuid>, id: Uuid, slot: InputSlot): Check {
    if slot.descriptor in relied then CheckContents(uploaded, id, slot)
    else
      var count :- InputsCount(slot);
      if count < 1 && !slot.optional then Failed(NoReliedSlotContentsEmpty(id, slot.descriptor))
      else CheckContents(uploaded, id, slot)
  }

  function CheckInputs(relied: seq<string>, uploaded: set<Uuid>, id: Uuid, slots: seq<InputSlot>): Check {
    if slots == [] then Done(())
    else
      var _ :- CheckInput(relied, uploaded, id, slots[0]);
      CheckInputs(relied, uploaded, id, slots[1..])
  }

  predicate HasCluster(s: Scheduling) { s.Auto? || s.clusters != [] }

  /** The guard on an OriginalBatch slot. The source writes `!count >= 1` with the bitwise complement
      of a 64-bit count; its exception and its documentation mean "count below one". */
  datatype Guard = AsWritten | AsDocumented {
    predicate Rejects(count: nat) {
      match this
      case AsWritten => Complement(count) >= 1
      case AsDocumented => count < 1
    }

    static function Complement(count: nat): nat {
      0xFFFF_FFFF_FFFF_FFFF - count % 0x1_0000_0000_0000_0000
    }
  }

  function CheckUpstream(d: Draft, id: Uuid, descriptor: string): Check {
    var r := FirstFeeding(d.relations, descriptor);
    if r.None? then Failed(NoSuchBatchOutputs(id, descriptor))
    else
      var fromSlot := FirstTo(r.value.slots, descriptor);
      var from :- FindUnwrap(d.nodes, DraftId, r.value.fromId);
      if from.strategies.None? || from.strategies.value == [] then
        Failed(ReliedNodeIsNotBatched(r.value.fromId, id, descriptor))
      else if forall b :: b in from.strategies.value ==> b.slot != fromSlot then
        Failed(ReliedSlotIsNotBatched(r.value.fromId, fromSlot, id, descriptor))
      else Done(())
  }

  /** The upstream slot of the first slot relation to that name. */
  function FirstTo(rs: seq<SlotRelation>, descriptor: string): string
    requires exists s :: s in rs && s.toSlot == descriptor
  {
    if rs[0].toSlot == descriptor then rs[0].fromSlot else FirstTo(rs[1..], descriptor)
  }

  /** It is that of the first slot relation which feeds the slot. */
  lemma {:induction false} UpstreamIsFirst(rs: seq<SlotRelation>, descriptor: string, i: nat)
    requires i < |rs| && rs[i].toSlot == descriptor && forall j :: 0 <= j < i ==> rs[j].toSlot != descriptor
    ensures FirstTo(rs, descriptor) == rs[i].fromSlot
  {
    if i > 0 {
      assert rs[1..][i - 1] == rs[i];
      assert forall j :: 0 <= j < i - 1 ==> rs[1..][j] == rs[j + 1];
      UpstreamIsFirst(rs[1..], descriptor, i - 1);
    }
  }

  function CheckStrategy(d: Draft, guard: Guard, n: NodeDraft, b: BatchStrategy): Check {
    var slot :- FindUnwrap(n.inputs, InputName, b.slot);
    match b.kind
    case MatchRegex(_) =>
      var count :- InputsCount(slot);
      if count != 1 then Failed(NotSingleInputWithMatchRegex(n.id, slot.descriptor)) else Done(())
    case OriginalBatch =>
      var count :- InputsCount(slot);
      if guard.Rejects(count) then Failed(OriginalBatchInputsLessThanOne(n.id, slot.descriptor)) else Done(())
    case FromBatchOutputs => CheckUpstream(d, n.id, slot.descriptor)
  }

  function CheckStrategies(d: Draft, guard: Guard, n: NodeDraft, bs: seq<BatchStrategy>): Check {
    if bs == [] then Done(())
    else
      var _ :- CheckStrategy(d, guard, n, bs[0]);
      CheckStrategies(d, guard, n, bs[1..])
  }

  function CheckNode(d: Draft, guard: Guard, relied: seq<string>, uploaded: set<Uuid>, n: NodeDraft): Check {
    var _ :- CheckInputs(relied, uploaded, n.id, n.inputs);
    if !HasCluster(n.scheduling) then Failed(AtLeastOneCluster)
    else if n.strategies.None? then Done(())
    else CheckStrategies(d, guard, n, n.strategies.value)
  }

  function CheckNodes(d: Draft, guard: Guard, relied: seq<string>, uploaded: set<Uuid>, ns: seq<NodeDraft>): Check {
    if ns == [] then Done(())
    else
      var _ :- CheckNode(d, guard, relied, uploaded, ns[0]);
      CheckNodes(d, guard, relied, uploaded, ns[1..])
  }

  /** The whole validation of a submission. */
  function Validate(d: Draft, guard: Guard, uploaded: set<Uuid>): Check {
    var relied :- ValidateRelatedNodes(d);
    CheckNodes(d, guard, relied, uploaded, d.nodes)
  }

  // ---------------------------------------------------------------- what acceptance means

  lemma {:induction false} SlotRelationsAccepted(from: NodeDraft, to: NodeDraft, rs: seq<SlotRelation>)
    ensures CheckSlotRelations(from, to, rs).Done? <==> forall r :: r in rs ==> CheckSlotRelation(from, to, r).Done?
  {
    if rs != [] {
      SlotRelationsAccepted(from, to, rs[1..]);
      assert forall r :: r in rs <==> r == rs[0] || r in rs[1..];
    }
  }

  lemma {:induction false} RelationsAccepted(d: Draft, rs: seq<NodeRelation>)
    ensures CheckRelations(d, rs).Done? <==> forall r :: r in rs ==> CheckRelation(d, r).Done?
  {
    if rs != [] { RelationsAccepted(d, rs[1..]); assert forall r :: r in rs <==> r == rs[0] || r in rs[1..]; }
  }

  lemma {:induction false} InputsAccepted(relied: seq<string>, uploaded: set<Uuid>, id: Uuid, slots: seq<InputSlot>)
    ensures CheckInputs(relied, uploaded, id, slots).Done? <==>
            forall s :: s in slots ==> CheckInput(relied, uploaded, id, s).Done?
  {
    if slots != [] {
      InputsAccepted(relied, uploaded, id, slots[1..]);
      assert forall s :: s in slots <==> s == slots[0] || s in slots[1..];
    }
  }

  lemma {:induction false} StrategiesAccepted(d: Draft, guard: Guard, n: NodeDraft, bs: seq<BatchStrategy>)
    ensures CheckStrategies(d, guard, n, bs).Done? <==> forall b :: b in bs ==> CheckStrategy(d, guard, n, b).Done?
  {
    if bs != [] {
      StrategiesAccepted(d, guard, n, bs[1..]);
      assert forall b :: b in bs <==> b == bs[0] || b in bs[1..];
    }
  }

  lemma {:induction false} NodesAccepted(d: Draft, guard: Guard, relied: seq<string>, uploaded: set<Uuid>,
                                         ns: seq<NodeDraft>)
    ensures CheckNodes(d, guard, relied, uploaded, ns).Done? <==>
            forall n :: n in ns ==> CheckNode(d, guard, relied, uploaded, n).Done?
  {
    if ns != [] {
      NodesAccepted(d, guard, relied, uploaded, ns[1..]);
      assert forall n :: n in ns <==> n == ns[0] || n in ns[1..];
    }
  }

  /** Acceptance is acceptance of each relation and of each node. */
  lemma ValidateByParts(d: Draft, guard: Guard, uploaded: set<Uuid>)
    ensures Validate(d, guard, uploaded).Done? <==>
            && (forall r :: r in d.relations ==> CheckRelation(d, r).Done?)
            && (forall n :: n in d.nodes ==> CheckNode(d, guard, ReliedSlots(d.relations), uploaded, n).Done?)
  {
    RelationsAccepted(d, d.relations);
    NodesAccepted(d, guard, ReliedSlots(d.relations), uploaded, d.nodes);
  }

  // ---------------------------------------------------------------- the declared conditions

  /** How many inputs a slot of a known kind was given, if any list was. */
  function Given(s: InputSlot): Option<nat> {
    match s.kind
    case TextSlot(Some(texts)) => Some(|texts|)
    case FileSlot(Some(inputs), _, _) => Some(|inputs|)
    case _ => None
  }

  /** A slot relation joins an output slot and an input slot of one kind, the latter given nothing. */
  ghost predicate Joins(from: NodeDraft, to: NodeDraft, r: SlotRelation) {
    && (exists o :: Find(from.outputs, DraftOutName, r.fromSlot) == Some(o)
                    && exists i :: Find(to.inputs, InputName, r.toSlot) == Some(i)
                                   && Given(i) == Some(0) && (o.kind.FileOut? <==> i.kind.FileSlot?))
  }

  /** Both ends of a node relation exist, and so do those of its slot relations. */
  ghost predicate Linked(d: Draft, r: NodeRelation) {
    var from, to := Find(d.nodes, DraftId, r.fromId), Find(d.nodes, DraftId, r.toId);
    from.Some? && to.Some? && forall s :: s in r.slots ==> Joins(from.value, to.value, s)
  }

  /** Some relation, of whatever node, feeds a slot of that name. */
  ghost predicate Relied(d: Draft, name: string) {
    exists r :: r in d.relations && Feeds(r, name)
  }

  /** A slot no relation feeds was given a list of inputs, not empty if it is required, and every file
      given was uploaded. */
  ghost predicate Supplied(d: Draft, uploaded: set<Uuid>, s: InputSlot) {
    && (!Relied(d, s.descriptor) ==> Given(s).Some? && (s.optional || Given(s).value > 0))
    && (s.kind.FileSlot? ==>
          s.kind.fileInputs.Some? && forall f :: f in s.kind.fileInputs.value ==> f.fileId in uploaded)
  }

  /** The first relation that feeds a slot of that name comes from a slot its node batches over. */
  ghost predicate BatchedUpstream(d: Draft, name: string) {
    var r := FirstFeeding(d.relations, name);
    r.Some? &&
    var from := Find(d.nodes, DraftId, r.value.fromId);
    && from.Some? && from.value.strategies.Some?
    && exists b :: b in from.value.strategies.value && b.slot == FirstTo(r.value.slots, name)
  }

  /** What the inputs of a batched slot must be. */
  ghost predicate Batchable(d: Draft, guard: Guard, n: NodeDraft, b: BatchStrategy) {
    exists s :: Find(n.inputs, InputName, b.slot) == Some(s) &&
                match b.kind
                case MatchRegex(_) => Given(s) == Some(1)
                case OriginalBatch =>
                  Given(s).Some? &&
                  if guard.AsDocumented? then Given(s).value > 0
                  else Given(s).value % 0x1_0000_0000_0000_0000 == 0xFFFF_FFFF_FFFF_FFFF
                case FromBatchOutputs => BatchedUpstream(d, b.slot)
  }

  ghost predicate Ready(d: Draft, guard: Guard, uploaded: set<Uuid>, n: NodeDraft) {
    && (forall s :: s in n.inputs ==> Supplied(d, uploaded, s))
    && (n.scheduling.Auto? || n.scheduling.clusters != [])
    && (n.strategies.Some? ==> forall b :: b in n.strategies.value ==> Batchable(d, guard, n, b))
  }

  lemma CountIsGiven(s: InputSlot)
    ensures InputsCount<Exception>(s) == if Given(s).Some? then Done(Given(s).value) else Panicked
  {
  }

  lemma JoinsAccepted(from: NodeDraft, to: NodeDraft, r: SlotRelation)
    ensures CheckSlotRelation(from, to, r).Done? <==> Joins(from, to, r)
  {
    var i := Find(to.inputs, InputName, r.toSlot);
    if i.Some? { CountIsGiven(i.value); }
  }

  lemma LinkedAccepted(d: Draft, r: NodeRelation)
    ensures CheckRelation(d, r).Done? <==> Linked(d, r)
  {
    var from, to := Find(d.nodes, DraftId, r.fromId), Find(d.nodes, DraftId, r.toId);
    if from.Some? && to.Some? {
      SlotRelationsAccepted(from.value, to.value, r.slots);
      forall s | s in r.slots
        ensures CheckSlotRelation(from.value, to.value, s).Done? <==> Joins(from.value, to.value, s)
      {
        JoinsAccepted(from.value, to.value, s);
      }
    }
  }

  lemma {:induction false} FilesAccepted(uploaded: set<Uuid>, id: Uuid, descriptor: string, files: seq<FileInput>)
    ensures CheckFiles(uploaded, id, descriptor, files).Done? <==> forall f :: f in files ==> f.fileId in uploaded
  {
    if files != [] {
      FilesAccepted(uploaded, id, descriptor, files[1..]);
      assert forall f :: f in files <==> f == files[0] || f in files[1..];
    }
  }

  lemma SuppliedAccepted(d: Draft, uploaded: set<Uuid>, id: Uuid, s: InputSlot)
    ensures CheckInput(ReliedSlots(d.relations), uploaded, id, s).Done? <==> Supplied(d, uploaded, s)
  {
    ReliedMeaning(d.relations, s.descriptor);
    CountIsGiven(s);
    if s.kind.FileSlot? && s.kind.fileInputs.Some? {
      FilesAccepted(uploaded, id, s.descriptor, s.kind.fileInputs.value);
    }
  }

  lemma BatchableAccepted(d: Draft, guard: Guard, n: NodeDraft, b: BatchStrategy)
    ensures CheckStrategy(d, guard, n, b).Done? <==> Batchable(d, guard, n, b)
  {
    var s := Find(n.inputs, InputName, b.slot);
    if s.Some? {
      CountIsGiven(s.value);
      UpstreamAccepted(d, n.id, b.slot);
    }
  }

  lemma UpstreamAccepted(d: Draft, id: Uuid, name: string)
    ensures CheckUpstream(d, id, name).Done? <==> BatchedUpstream(d, name)
  {
  }

  lemma ReadyAccepted(d: Draft, guard: Guard, uploaded: set<Uuid>, n: NodeDraft)
    ensures CheckNode(d, guard, ReliedSlots(d.relations), uploaded, n).Done? <==> Ready(d, guard, uploaded, n)
  {
    var relied := ReliedSlots(d.relations);
    InputsAccepted(relied, uploaded, n.id, n.inputs);
    forall s | s in n.inputs ensures CheckInput(relied, uploaded, n.id, s).Done? <==> Supplied(d, uploaded, s) {
      SuppliedAccepted(d, uploaded, n.id, s);
    }
    if n.strategies.Some? {
      StrategiesAccepted(d, guard, n, n.strategies.value);
      forall b | b in n.strategies.value ensures CheckStrategy(d, guard, n, b).Done? <==> Batchable(d, guard, n, b) {
        BatchableAccepted(d, guard, n, b);
      }
    }
  }

  /** A draft is accepted exactly when it meets the declared conditions: the ends of every relation exist,
      are of one kind and the fed slot was given nothing; every required slot that no relation names was
      given inputs; every file was uploaded; every node may run somewhere; and every batched slot has the
      inputs its strategy needs. */
  lemma ValidateAccepts(d: Draft, guard: Guard, uploaded: set<Uuid>)
    ensures Validate(d, guard, uploaded).Done? <==>
            && (forall r :: r in d.relations ==> Linked(d, r))
            && (forall n :: n in d.nodes ==> Ready(d, guard, uploaded, n))
  {
    ValidateByParts(d, guard, uploaded);
    forall r | r in d.relations ensures CheckRelation(d, r).Done? <==> Linked(d, r) { LinkedAccepted(d, r); }
    forall n | n in d.nodes
      ensures CheckNode(d, guard, ReliedSlots(d.relations), uploaded, n).Done? <==> Ready(d, guard, uploaded, n)
    {
      ReadyAccepted(d, guard, uploaded, n);
    }
  }

  // ---------------------------------------------------------------- panics

  /** The first element that is not good is bad. */
  ghost predicate FirstBad<T(!new)>(s: seq<T>, good: T -> bool, bad: T -> bool) {
    exists i :: 0 <= i < |s| && BadAt(s, good, bad, i)
  }

  ghost predicate BadAt<T(!new)>(s: seq<T>, good: T -> bool, bad: T -> bool, i: int)
    requires 0 <= i < |s|
  {
    bad(s[i]) && forall j :: 0 <= j < i ==> good(s[j])
  }

  lemma FirstBadCons<T(!new)>(s: seq<T>, good: T -> bool, bad: T -> bool)
    requires s != []
    ensures FirstBad(s, good, bad) <==> bad(s[0]) || (good(s[0]) && FirstBad(s[1..], good, bad))
  {
    if bad(s[0]) { assert BadAt(s, good, bad, 0); }
    if good(s[0]) && FirstBad(s[1..], good, bad) {
      var i :| 0 <= i < |s[1..]| && BadAt(s[1..], good, bad, i);
      forall j | 0 <= j < i + 1 ensures good(s[j]) { if j > 0 { assert s[j] == s[1..][j - 1]; } }
      assert BadAt(s, good, bad, i + 1);
    }
    if FirstBad(s, good, bad) && !bad(s[0]) {
      var i :| 0 <= i < |s| && BadAt(s, good, bad, i);
      assert forall j :: 0 <= j < i - 1 ==> s[1..][j] == s[j + 1];
      assert BadAt(s[1..], good, bad, i - 1);
    }
  }

  ghost function JoinsIn(from: NodeDraft, to: NodeDraft): SlotRelation -> bool { r => Joins(from, to, r) }
  ghost function LinkedIn(d: Draft): NodeRelation -> bool { r => Linked(d, r) }
  ghost function SuppliedIn(d: Draft, uploaded: set<Uuid>): InputSlot -> bool { s => Supplied(d, uploaded, s) }
  ghost function BatchableIn(d: Draft, guard: Guard, n: NodeDraft): BatchStrategy -> bool {
    b => Batchable(d, guard, n, b)
  }
  ghost function ReadyIn(d: Draft, guard: Guard, uploaded: set<Uuid>): NodeDraft -> bool {
    n => Ready(d, guard, uploaded, n)
  }

  /** The fed slot exists but was given no list of inputs, or is of an unknown kind: its inputs are counted
      all the same. */
  ghost function JoinPanics(from: NodeDraft, to: NodeDraft): SlotRelation -> bool {
    (r: SlotRelation) =>
      var i := Find(to.inputs, InputName, r.toSlot);
      Find(from.outputs, DraftOutName, r.fromSlot).Some? && i.Some? && Given(i.value).None?
  }

  ghost function LinkPanics(d: Draft): NodeRelation -> bool {
    (r: NodeRelation) =>
      var from, to := Find(d.nodes, DraftId, r.fromId), Find(d.nodes, DraftId, r.toId);
      from.Some? && to.Some? && FirstBad(r.slots, JoinsIn(from.value, to.value), JoinPanics(from.value, to.value))
  }

  /** The inputs of a slot no relation names are counted, and the files of every file slot looked up. */
  ghost function SlotPanics(d: Draft): InputSlot -> bool {
    (s: InputSlot) => (!Relied(d, s.descriptor) && Given(s).None?) || (s.kind.FileSlot? && s.kind.fileInputs.None?)
  }

  /** The slot of a strategy, its inputs when it batches over them, or else the node upstream is missing. */
  ghost function StrategyPanics(d: Draft, n: NodeDraft): BatchStrategy -> bool {
    (b: BatchStrategy) =>
      var s := Find(n.inputs, InputName, b.slot);
      || s.None?
      || (b.kind != FromBatchOutputs && Given(s.value).None?)
      || (b.kind == FromBatchOutputs && SourceMissing(d, b.slot))
  }

  ghost predicate SourceMissing(d: Draft, name: string) {
    var r := FirstFeeding(d.relations, name);
    r.Some? && Find(d.nodes, DraftId, r.value.fromId).None?
  }

  ghost function NodePanics(d: Draft, guard: Guard, uploaded: set<Uuid>): NodeDraft -> bool {
    (n: NodeDraft) =>
      || FirstBad(n.inputs, SuppliedIn(d, uploaded), SlotPanics(d))
      || (&& (forall s :: s in n.inputs ==> Supplied(d, uploaded, s)) && HasCluster(n.scheduling) && n.strategies.Some?
          && FirstBad(n.strategies.value, BatchableIn(d, guard, n), StrategyPanics(d, n)))
  }

  lemma {:induction false} JoinsPanic(from: NodeDraft, to: NodeDraft, rs: seq<SlotRelation>)
    ensures CheckSlotRelations(from, to, rs).Panicked? <==> FirstBad(rs, JoinsIn(from, to), JoinPanics(from, to))
  {
    if rs != [] {
      JoinsPanic(from, to, rs[1..]);
      FirstBadCons(rs, JoinsIn(from, to), JoinPanics(from, to));
      JoinsAccepted(from, to, rs[0]);
      JoinPanicsIs(from, to, rs[0]);
    }
  }

  lemma JoinPanicsIs(from: NodeDraft, to: NodeDraft, r: SlotRelation)
    ensures CheckSlotRelation(from, to, r).Panicked? <==> JoinPanics(from, to)(r)
  {
    var i := Find(to.inputs, InputName, r.toSlot);
    if i.Some? { CountIsGiven(i.value); }
  }

  lemma {:induction false} LinksPanic(d: Draft, rs: seq<NodeRelation>)
    ensures CheckRelations(d, rs).Panicked? <==> FirstBad(rs, LinkedIn(d), LinkPanics(d))
  {
    if rs != [] {
      LinksPanic(d, rs[1..]);
      FirstBadCons(rs, LinkedIn(d), LinkPanics(d));
      LinkedAccepted(d, rs[0]);
      LinkPanicsIs(d, rs[0]);
    }
  }

  lemma LinkPanicsIs(d: Draft, r: NodeRelation)
    ensures CheckRelation(d, r).Panicked? <==> LinkPanics(d)(r)
  {
    var from, to := Find(d.nodes, DraftId, r.fromId), Find(d.nodes, DraftId, r.toId);
    if from.Some? && to.Some? { JoinsPanic(from.value, to.value, r.slots); }
  }

  lemma {:induction false} FilesNeverPanic(uploaded: set<Uuid>, id: Uuid, descriptor: string, files: seq<FileInput>)
    ensures !CheckFiles(uploaded, id, descriptor, files).Panicked?
  {
    if files != [] { FilesNeverPanic(uploaded, id, descriptor, files[1..]); }
  }

  lemma SlotPanicsIs(d: Draft, uploaded: set<Uuid>, id: Uuid, s: InputSlot)
    ensures CheckInput(ReliedSlots(d.relations), uploaded, id, s).Panicked? <==> SlotPanics(d)(s)
  {
    ReliedMeaning(d.relations, s.descriptor);
    CountIsGiven(s);
    if s.kind.FileSlot? && s.kind.fileInputs.Some? {
      FilesNeverPanic(uploaded, id, s.descriptor, s.kind.fileInputs.value);
    }
  }

  lemma {:induction false} SlotsPanic(d: Draft, uploaded: set<Uuid>, id: Uuid, slots: seq<InputSlot>)
    ensures CheckInputs(ReliedSlots(d.relations), uploaded, id, slots).Panicked? <==>
            FirstBad(slots, SuppliedIn(d, uploaded), SlotPanics(d))
  {
    if slots != [] {
      SlotsPanic(d, uploaded, id, slots[1..]);
      FirstBadCons(slots, SuppliedIn(d, uploaded), SlotPanics(d));
      SuppliedAccepted(d, uploaded, id, slots[0]);
      SlotPanicsIs(d, uploaded, id, slots[0]);
    }
  }

  lemma StrategyPanicsIs(d: Draft, guard: Guard, n: NodeDraft, b: BatchStrategy)
    ensures CheckStrategy(d, guard, n, b).Panicked? <==> StrategyPanics(d, n)(b)
  {
    var s := Find(n.inputs, InputName, b.slot);
    if s.Some? { CountIsGiven(s.value); }
  }

  lemma {:induction false} StrategiesPanic(d: Draft, guard: Guard, n: NodeDraft, bs: seq<BatchStrategy>)
    ensures CheckStrategies(d, guard, n, bs).Panicked? <==> FirstBad(bs, BatchableIn(d, guard, n), StrategyPanics(d, n))
  {
    if bs != [] {
      StrategiesPanic(d, guard, n, bs[1..]);
      FirstBadCons(bs, BatchableIn(d, guard, n), StrategyPanics(d, n));
      BatchableAccepted(d, guard, n, bs[0]);
      StrategyPanicsIs(d, guard, n, bs[0]);
    }
  }

  lemma AllSupplied(d: Draft, uploaded: set<Uuid>, id: Uuid, slots: seq<InputSlot>)
    ensures CheckInputs(ReliedSlots(d.relations), uploaded, id, slots).Done? <==>
            forall s :: s in slots ==> Supplied(d, uploaded, s)
  {
    InputsAccepted(ReliedSlots(d.relations), uploaded, id, slots);
    forall s | s in slots
      ensures CheckInput(ReliedSlots(d.relations), uploaded, id, s).Done? <==> Supplied(d, uploaded, s)
    {
      SuppliedAccepted(d, uploaded, id, s);
    }
  }

  lemma NodePanicsIs(d: Draft, guard: Guard, uploaded: set<Uuid>, n: NodeDraft)
    ensures CheckNode(d, guard, ReliedSlots(d.relations), uploaded, n).Panicked? <==> NodePanics(d, guard, uploaded)(n)
  {
    SlotsPanic(d, uploaded, n.id, n.inputs);
    AllSupplied(d, uploaded, n.id, n.inputs);
    if n.strategies.Some? { StrategiesPanic(d, guard, n, n.strategies.value); }
  }

  lemma {:induction false} NodesPanic(d: Draft, guard: Guard, uploaded: set<Uuid>, ns: seq<NodeDraft>)
    ensures CheckNodes(d, guard, ReliedSlots(d.relations), uploaded, ns).Panicked? <==>
            FirstBad(ns, ReadyIn(d, guard, uploaded), NodePanics(d, guard, uploaded))
  {
    if ns != [] {
      NodesPanic(d, guard, uploaded, ns[1..]);
      FirstBadCons(ns, ReadyIn(d, guard, uploaded), NodePanics(d, guard, uploaded));
      ReadyAccepted(d, guard, uploaded, ns[0]);
      NodePanicsIs(d, guard, uploaded, ns[0]);
    }
  }

  /** The validator itself panics exactly when the first thing it does not accept is one it unwraps: an
      input slot that is counted, or whose files are looked up, without a list of inputs, or a strategy
      whose slot is missing. */
  lemma ValidatePanics(d: Draft, guard: Guard, uploaded: set<Uuid>)
    ensures Validate(d, guard, uploaded).Panicked? <==>
            || FirstBad(d.relations, LinkedIn(d), LinkPanics(d))
            || (&& (forall r :: r in d.relations ==> Linked(d, r))
                && FirstBad(d.nodes, ReadyIn(d, guard, uploaded), NodePanics(d, guard, uploaded)))
  {
    LinksPanic(d, d.relations);
    RelationsAccepted(d, d.relations);
    forall r | r in d.relations ensures CheckRelation(d, r).Done? <==> Linked(d, r) { LinkedAccepted(d, r); }
    NodesPanic(d, guard, uploaded, d.nodes);
  }

  /** As written, the guard rejects an OriginalBatch slot with any number of inputs a list can hold;
      as documented, it rejects exactly the empty one. */
  lemma GuardMeaning(count: nat)
    requires count < 0x8000_0000_0000_0000
    ensures AsWritten.Rejects(count)
    ensures AsDocumented.Rejects(count) <==> count == 0
  {
  }
}
