/** Workflow drafts as a user submits them, and the instances they become. */
module WorkflowModel {
  import opened Basics

  type Uuid = nat

  datatype FileInput = FileInput(fileId: Uuid, name: string)

  datatype SlotKind = TextSlot(texts: Option<seq<Uuid>>)
                    | FileSlot(fileInputs: Option<seq<FileInput>>, expectedName: Option<string>, isBatch: bool)
                    | UnknownSlot

  datatype InputSlot = InputSlot(descriptor: string, optional: bool, kind: SlotKind)

  datatype OutKind = TextOut | FileOut

  datatype DraftOutput = DraftOutput(descriptor: string, kind: OutKind)

  /** An output slot of an instance, with the ids prepared for what each sub-task will put there. */
  datatype SpecOutput = SpecOutput(descriptor: string, kind: OutKind, prepared: seq<Uuid>)

  datatype BatchKind = OriginalBatch | MatchRegex(fillCount: nat) | FromBatchOutputs

  datatype BatchStrategy = BatchStrategy(slot: string, kind: BatchKind)

  datatype Scheduling = Manual(clusters: seq<Uuid>) | Auto | Prefer(clusters: seq<Uuid>)

  datatype NodeDraft = NodeDraft(id: Uuid, name: string, inputs: seq<InputSlot>, outputs: seq<DraftOutput>,
                                 strategies: Option<seq<BatchStrategy>>, scheduling: Scheduling)

  datatype NodeSpec = NodeSpec(id: Uuid, name: string, inputs: seq<InputSlot>, outputs: seq<SpecOutput>,
                               strategies: seq<BatchStrategy>, scheduling: Scheduling)

  datatype SlotRelation = SlotRelation(fromSlot: string, toSlot: string)

  datatype NodeRelation = NodeRelation(fromId: Uuid, toId: Uuid, slots: seq<SlotRelation>)

  datatype Draft = Draft(nodes: seq<NodeDraft>, relations: seq<NodeRelation>)

  datatype Instance = Instance(id: Uuid, nodes: seq<NodeSpec>, relations: seq<NodeRelation>)

  function InputName(s: InputSlot): string { s.descriptor }
  function DraftOutName(s: DraftOutput): string { s.descriptor }
  function SpecOutName(s: SpecOutput): string { s.descriptor }
  function DraftId(n: NodeDraft): Uuid { n.id }
  function SpecId(n: NodeSpec): Uuid { n.id }

  /** `inputs_count`: it unwraps the contents. */
  function InputsCount<E>(s: InputSlot): Outcome<nat, E> {
    match s.kind
    case TextSlot(texts) => if texts.Some? then Done(|texts.value|) else Panicked
    case FileSlot(inputs, _, _) => if inputs.Some? then Done(|inputs.value|) else Panicked
    case UnknownSlot => Panicked
  }

  /** The relations that feed a node, in the order of the workflow. */
  function DependenciesOf(relations: seq<NodeRelation>, id: Uuid): (rs: seq<NodeRelation>)
    ensures forall r :: r in rs <==> r in relations && r.toId == id
  {
    if relations == [] then []
    else (if relations[0].toId == id then [relations[0]] else []) + DependenciesOf(relations[1..], id)
  }

  predicate Feeds(r: NodeRelation, descriptor: string) {
    exists s :: s in r.slots && s.toSlot == descriptor
  }

  /** The first relation in a list that feeds a slot of that name. */
  function FirstFeeding(relations: seq<NodeRelation>, descriptor: string): (r: Option<NodeRelation>)
    ensures r.Some? ==> r.value in relations && Feeds(r.value, descriptor)
    ensures r.None? ==> forall x :: x in relations ==> !Feeds(x, descriptor)
  {
    if relations == [] then None
    else if Feeds(relations[0], descriptor) then Some(relations[0])
    else FirstFeeding(relations[1..], descriptor)
  }

  /** The relation found is the first of the list that feeds the slot. */
  lemma {:induction false} FeedingIsFirst(relations: seq<NodeRelation>, descriptor: string, i: nat)
    requires i < |relations| && Feeds(relations[i], descriptor)
    requires forall j :: 0 <= j < i ==> !Feeds(relations[j], descriptor)
    ensures FirstFeeding(relations, descriptor) == Some(relations[i])
  {
    if i > 0 {
      assert relations[1..][i - 1] == relations[i];
      assert forall j :: 0 <= j < i - 1 ==> relations[1..][j] == relations[j + 1];
      FeedingIsFirst(relations[1..], descriptor, i - 1);
    }
  }

  /** Among the relations that feed a node, the one found is the first of the whole list that feeds the node
      at that slot. */
  lemma {:induction false} DependencyIsFirst(relations: seq<NodeRelation>, id: Uuid, descriptor: string, i: nat)
    requires i < |relations| && relations[i].toId == id && Feeds(relations[i], descriptor)
    requires forall j :: 0 <= j < i ==> !(relations[j].toId == id && Feeds(relations[j], descriptor))
    ensures FirstFeeding(DependenciesOf(relations, id), descriptor) == Some(relations[i])
  {
    var tail := DependenciesOf(relations[1..], id);
    if i > 0 {
      assert relations[1..][i - 1] == relations[i];
      assert forall j :: 0 <= j < i - 1 ==> relations[1..][j] == relations[j + 1];
      DependencyIsFirst(relations[1..], id, descriptor, i - 1);
      if relations[0].toId == id {
        assert ([relations[0]] + tail)[1..] == tail;
      } else {
        assert [] + tail == tail;
      }
    }
  }
}
