# Verified model of the Kuintessence workflow backend and agent

Dafny 4.11. `dafny verify dfyconfig.toml` checks the whole project. Nothing was executed: the project is a
model of the Rust sources and proofs about that model.

What is modelled, file group by file group:

* **Use-case packages, compiled twice.** `PackageModel`, `FormatTables`: packages and the keyed format tables.
  `PackageValidate` is `package_validate`, `SoftwareComputing` is `parse_task` with `get_content`;
  `PackageValidateLoops` and `SoftwareComputingLoops` are the same two with their loops, early returns and
  reassigned tables, each proved equal to the functions. `PackageSafety`: when an accepted package makes
  the second compiler panic. `PackageAgreement`, `OutputAgreement`: preview and task are two readings of one list of
  references. `TaskContents`, `TaskResult`: what a task holds, said of the package and the node alone, and when there is
  one; `PreviewContents`: the same of a preview. `Placeholder`: filling formats. `Numbering`: the check of argument
  positions.
* **Workflow draft to instances.** `WorkflowModel`, `DraftValidation`, `DraftRefusals` (which exception a draft is
  refused with), `WorkflowLoops` (the validators as loops), `Renaming` (`update_id`), `Submission` (conversion and input
  completion), `SubmissionContents` (what completion leaves in each slot), `BatchCount` (`sub_node_count`),
  `NodeInstances` (expansion and the node-instance repository, a class), `SubmissionBatch` (what validation
  guarantees to the batch count), `Filler` (batch texts), `Debatch` (combinations of batch inputs).
* **The agent.** `AgentModel` gives every service call as a function of the whole agent state: repository vectors,
  slot counter, report queue, transfer and deployment channels. `AgentHost` is the same agent as an object updated in
  place, each method proved against that function, any call leaving it valid. `AgentStaging`: staging safety over all
  runs. `AgentSlots`, `AgentEvents`, `AgentRuns`, `AgentOrder`: slot accounting, order and stranded tasks over all runs.
  `AgentCopies`: jobs that are submitted after a failed report. `AgentEffects`, `AgentLaunches`: what each call does, in
  every run, from the observation of a job to the hand-over of a queued sub-task.
* **Chunked transfer.** `Multipart`, `MultipartRuns`, `MultipartService` (a class): server-side reassembly with
  cancel and lease expiry. `BlockDownload`: the agent's ranged download. `RangeHeader`: printing and parsing the
  header (RFC 9110, section 14.1.2).
* `Histories`: runs of a system, and what every move keeps. `Basics` and `Text`: lookups, outcomes, text operations.

How failures are modelled: `Outcome` is `Done`, `Failed` (an error that is returned) or `Panicked` (an `unwrap` on
nothing, `todo!`, `unreachable!`); a batch count that never returns is told apart (`NodeInstances.Parse.NeverReturns`).
Hashing (blake3), Handlebars rendering, stored texts, fresh ids, the job scheduler's answers and the iteration order of
every `HashMap` are parameters, so the theorems hold for all of them.

## Where the code and its documentation differ, and what was found

The model follows the code. Where it does something its own documentation or callers do not expect, a lemma shows it.

* `workflow_draft.rs:216` writes `!input_slot.inputs_count() >= 1` with `!` on a `usize`, which is true for every count
  that occurs, so every `OriginalBatch` strategy is rejected; `exceptions/workflow_draft.rs:18` documents "less than one".
  Both guards are modelled (`Guard.AsWritten`, `Guard.AsDocumented`); `DraftValidation.GuardMeaning` gives each its exact
  meaning and the submission theorems hold under either.
* `relied_input_slots` holds slot descriptors without their node: `SubmissionBatch.SharedNameAccepted` is an accepted
  draft whose required slot stays empty; `Submission.RequiredSlotsFilled` says exactly when one does.
* For the same reason the batch count of an accepted draft can reach an `unwrap` on nothing (`workflow_instance.rs:251`):
  `SubmissionBatch.SharedBatchAccepted` and `SharedBatchUnwraps`. `SubmissionBatch.AcceptedResolves` is the exact
  condition, and `SubmissionBatch.SubmissionEmits` says exactly when an accepted draft parses.
* Two slots of one node may share a name. The validator looks at the first; completing the other with an input of
  another kind returns an error (`SubmissionBatch.RepeatedNameFails`, exactly when: `Submission.SubmissionSound`).
* The draft validator itself panics on some drafts: exactly when `DraftValidation.ValidatePanics` says.
* Nothing rejects a cycle of `FromBatchOutputs`: `SubmissionBatch.MutualBatchAccepted` and `MutualBatchDiverges`.
  The count terminates exactly when no cycle is reachable (`BatchCount.TerminatesExactly`).
* `update_id` goes through the id map entry by entry, so chained ids depend on the map's order;
  `Renaming.OrderIndependent` is an if-and-only-if, and fresh ids meet its condition.
* After a merge has succeeded a repeated part fails when the upload has more than one part
  (`MultipartRuns.RepeatAfterMerge`).
* Cancelling an id that has no record returns an error before anything is deleted, so parts cached for it stay
  (`Multipart.RemoveMeaning` is exact); so do the parts of a record whose lease ran out (`Multipart.ExpireMeaning`).
* The loop over the block tasks of a download looks at each join and drops what the task returned (`Ok(_)`), so a block
  whose four tries all failed is reported as downloaded: `BlockDownload.LossGoesUnnoticed` says when exactly.
* `sub_nodes` restarts its product after an empty factor: `Debatch.CombosCount` is exact.
* A failed copy through the SSH proxy is reported as failed and then run all the same: `AgentCopies.JobOfTheFailed` is a
  run that submits the job of a sub-task after its failed report. Nothing else does that: in every run a job goes out
  with a failed report sent exactly when such a copy came first (`AgentCopies.JobAfterFailure`).
* A task is scheduled by the very call that stores it, so the interval tick never finds one waiting
  (`AgentOrder.TickDoesNothing`); with a non-zero limit a task that arrives when all slots are taken is therefore never
  started (`AgentOrder.StrandedForEver`). That is the only way to strand one (`AgentOrder.StrandedExactlyWhen`), and
  `AgentOrder.SecondStranded` is a run that does. The deployed limit is 0.
* Every failed transfer of a sub-task reports it, and every failed report takes the slot counter down
  (`task_scheduler.rs:243-245`). `AgentOrder.CountBelowZero` is a run of five calls that subtracts from a counter of zero:
  the counter is a `u32`, so the code panics or wraps there. The counter is right exactly as long as no sub-task has had
  two reports consumed (`AgentOrder.SlotAccounting`).
* A collector that reads a file no File output slot names makes `package_validate` panic instead of refusing:
  `PackageValidate.ValidatePanics` is the exact condition, `UnmatchedPanics` a package that meets it.
* Flags are not validated: on a node that fits it an accepted package makes `parse_task` panic exactly when a flag names
  no material (`PackageSafety.PanicsExactlyOnFlags`; `FlaggedPanics` is such a package).
* Every value that contains a placeholder shifts the next value (`Placeholder.PlaceholderInValue`).

## Model

| member | source | states |
|---|---|---|
| PackageValidate.ValidateAccepts | src/lib-co-repo/src/services/package_validate.rs:33-680 | The validator accepts exactly the well-formed packages whose argument sorts are 0 to n-1, and its tables are what the package's references write, in order |
| PackageValidate.SlotsWrote | src/lib-co-repo/src/services/package_validate.rs:59-224 | Folding the slots succeeds iff every reference resolves, never panics, and yields the tables the references write |
| PackageValidate.TemplatesWrote | src/lib-co-repo/src/services/package_validate.rs:258-427 | The same for the used templates in any order: accepted iff each template, its info and its direct mounts resolve |
| PackageValidate.TemplatesChecked | src/lib-co-repo/src/services/package_validate.rs:226-256 | The first look at template names accepts iff every name mounts directly and resolves |
| PackageValidate.CollectedIs | src/lib-co-repo/src/services/package_validate.rs:443-498 | The scan for a collected file succeeds, fails or panics exactly as the first File output slot of that name dictates |
| PackageValidate.OutputsWrote | src/lib-co-repo/src/services/package_validate.rs:429-647 | Outputs are accepted iff each resolves, leave the argument tables alone, and panic iff the first that does not resolve is gathered by a collector of a file that no File output slot names |
| PackageValidate.ValidatePanics | src/lib-co-repo/src/services/package_validate.rs:33-680 | The validator panics iff slots, template names and used templates resolve and the first output that does not resolve is gathered by a collector of a file that no File output slot names |
| PackageValidate.UnmatchedPanics | src/lib-co-repo/src/services/package_validate.rs:493-497 | A package of one text output and one collector on which the validator panics |
| PreviewContents.PreviewHolds | src/lib-co-repo/src/services/package_validate.rs:59-647 | An accepted preview lists, in order, the default input files of the slots, the files of the used templates and the output files, each with the slot or template it comes from, its material and path; and one collection per collected output, with what it reads, its rule, target and whether it is optional |
| Numbering.NumberingExact | src/lib-co-repo/src/services/package_validate.rs:649-668 | The scan over the sorted keys accepts iff the key set is {0, ..., n-1}, and its subtraction never underflows |
| Numbering.CheckSorts | src/lib-co-repo/src/services/package_validate.rs:650-664 | The loop with the running `p` computes that check, on any list of keys |
| PackageValidateLoops.ValidatePackage | src/lib-co-repo/src/services/package_validate.rs:33-680 | The validator with its loops and early returns computes the specified result |
| PackageValidateLoops.CheckAppointing | src/lib-co-repo/src/services/package_validate.rs:466-486 | The scan for the slot that appoints a path, as a loop with a remembered slot |
| PackageValidateLoops.FindCollected | src/lib-co-repo/src/services/package_validate.rs:445-497 | The scan with break and error paths for the material a collector reads |
| PackageSafety.PanicsExactlyOnFlags | src/kernel/src/services/use_cases/software_computing.rs:164-745 | An accepted package, compiled for a node that fits it, reaches an unwrap on nothing, `todo!` or `unreachable!` iff one of its argument or environment flags names no material, in whatever orders the two compilers iterate their tables |
| PackageSafety.FlaggedPanics | src/kernel/src/services/use_cases/software_computing.rs:164-176 | A package with one flag that names no material: it is accepted, any node fits it, and compiling it panics |
| PackageSafety.SlotsParsed | src/kernel/src/services/use_cases/software_computing.rs:177-317 | Slots that resolve and fit never panic, and enter exactly the package's references with their run-time values |
| PackageSafety.TemplatesParsed | src/kernel/src/services/use_cases/software_computing.rs:320-457 | Templates compile iff each resolves and renders, never panic when they resolve, enter their references, and leave the template keys alone |
| PackageSafety.OutputsSafe | src/kernel/src/services/use_cases/software_computing.rs:459-745 | Outputs that resolve, for a node that fits, never panic |
| PackageSafety.ContentFits | src/kernel/src/services/use_cases/software_computing.rs:900-956 | The input of a fitting slot never panics, and a text slot wired to standard input has one |
| TaskResult.TaskHolds | src/kernel/src/services/use_cases/software_computing.rs:122-807 | The files of a task are, in order, one per file put in each slot (under the name the slot expects or else its own, with the slot's batch flag, by its id), those of each used template, and the output files; its collections are those of the collected outputs; its standard input is the last mount, a text of a text slot or template, a path of a file slot or file name |
| TaskResult.CompilesExactly | src/kernel/src/services/use_cases/software_computing.rs:122-807 | On a node that fits it an accepted package compiles iff every flag names a material, every text it reads is stored, every used template renders and every output slot of the node is of the output's kind |
| TaskContents.ContentIs | src/kernel/src/services/use_cases/software_computing.rs:900-956 | What is fetched for a slot: its stored texts, or the paths of its files, joined by one space, and its files |
| PackageAgreement.PreviewAndTaskAgree | src/kernel/src/services/use_cases/software_computing.rs:164-457 | With templates that fill different placeholders and same-key references of one format: the same arguments and environments, but for those flags bring, with the same formats, but for those a flag came first on; each placeholder named by the preview after, and filled in the task with the run-time value of, the source of its last reference; the same template keys, filled from the slots the preview names; the same standard input |
| PackageAgreement.OneArgumentPerEntry | src/kernel/src/services/use_cases/software_computing.rs:746-768 | The task has exactly one argument per preview entry or flag, in the order of the sorts, each the format of the flag or else of the preview filled; without flags argument i is entry i |
| PackageAgreement.OneEnvironmentPerEntry | src/kernel/src/services/use_cases/software_computing.rs:770-790 | The task has exactly one environment per preview entry or flag, the format of the flag or else of the preview filled |
| PackageAgreement.OrderDoesNotShow | src/kernel/src/services/use_cases/software_computing.rs:320-457 | Neither whether the package compiles, nor arguments, environments and what standard input carries, depends on the order the used templates are iterated in |
| PackageAgreement.FlagsEntered | src/kernel/src/services/use_cases/software_computing.rs:164-176 | The flags leave unfilled entries: the format of the first flag of each sort, and of the first flag of each environment key |
| PackageAgreement.TableOfUsed | src/lib-co-repo/src/services/package_validate.rs:116-131 | The table both compilers iterate has exactly the templates some slot fills |
| PackageAgreement.KeyFilledBy | src/lib-co-repo/src/services/package_validate.rs:116-131 | In that table a key of a template is filled from the last slot that names it, and is absent when none does |
| PackageAgreement.AcceptedSorts | src/lib-co-repo/src/services/package_validate.rs:649-668 | The argument table of an accepted package has the keys 0 to n-1 |
| FormatTables.SameTables | src/lib-co-repo/src/services/package_validate.rs:77-86 | Tables written by `entry`/`or_insert`/`insert` in two orders of the templates agree on placeholders and sources, and on keys and formats but for those they start with |
| FormatTables.OrderShows | src/kernel/src/services/use_cases/software_computing.rs:320-350 | Two templates that fill one placeholder: the later one decides, so the order does show |
| OutputAgreement.OutputsAgree | src/kernel/src/services/use_cases/software_computing.rs:459-745 | The outputs become, one for one and in order, the same collections and output files in preview and task: a collected file is read at the path of the File output slot the collector names, which is the text its own appointment stored or the material's path; every collection and output file carries the id prepared for the node's output slot |
| Placeholder.FillPlaceholders | src/kernel/src/services/use_cases/software_computing.rs:750-766 | The loop of `replacen` over the sorted keys |
| Placeholder.FilledAtOnce | src/kernel/src/services/use_cases/software_computing.rs:748-790 | When each value is filled in while no placeholder stands before the one that is due, filling one by one is simultaneous substitution: the r-th smallest key lands in the r-th placeholder |
| Placeholder.FilledByKey | src/kernel/src/services/use_cases/software_computing.rs:748-790 | With keys 0 to m-1, under the same condition, the value of key k lands in the k-th placeholder |
| Placeholder.CleanSettles | src/kernel/src/services/use_cases/software_computing.rs:748-790 | The condition holds when the substituted text contains no placeholder, whatever single braces it has |
| Placeholder.PlainSettles | src/kernel/src/services/use_cases/software_computing.rs:748-790 | And when values and segments are free of an opening brace |
| Placeholder.PlaceholderInValue | src/kernel/src/services/use_cases/software_computing.rs:756-764 | For every value that contains the placeholder behind text that makes none: it takes the next value in its own placeholder |
| SoftwareComputingLoops.CompileTask | src/kernel/src/services/use_cases/software_computing.rs:122-807 | The compiler with its loops, from the flags to the filled formats, computes the specified task |
| SoftwareComputingLoops.FillArguments | src/kernel/src/services/use_cases/software_computing.rs:746-768 | The formats in the order of their sorts, each filled by the loop of `replacen` |
| SoftwareComputingLoops.FillEnvironments | src/kernel/src/services/use_cases/software_computing.rs:770-790 | The same for the environments, entry by entry in any order |
| SoftwareComputingLoops.FetchContent | src/kernel/src/services/use_cases/software_computing.rs:900-956 | `get_content` with its loops over texts and files |
| SoftwareComputingLoops.EnterSlot | src/kernel/src/services/use_cases/software_computing.rs:177-316 | One slot: input fetched, files extended, every mount entered |
| SoftwareComputingLoops.EnterTemplate | src/kernel/src/services/use_cases/software_computing.rs:320-456 | One template: rendered, its content and its file name mounted |
| SoftwareComputingLoops.EnterOutput | src/kernel/src/services/use_cases/software_computing.rs:460-744 | One output: collected or declared, with its prepared id |
| DraftValidation.ValidateAccepts | src/kernel/src/models/impls/workflow_draft.rs:83-283 | Validation accepts exactly the drafts in which both ends of every relation exist, are of one kind and the fed slot was given nothing; every input slot no relation names was given a list, not empty if required; every file was uploaded; every node is automatic or names a cluster; and every batched slot has one input, the inputs the guard asks for, or an upstream slot that is batched, by its strategy |
| DraftValidation.ValidatePanics | src/kernel/src/models/impls/workflow_draft.rs:83-283 | The draft validator panics iff, everything before it having passed, it meets a fed slot that was given no list of inputs, a slot no relation names that was given none, a file slot without contents, or a strategy on a slot that does not exist or that batches over inputs never given |
| DraftRefusals.RefusedWith | src/kernel/src/models/impls/workflow_draft.rs:83-283 | The exception a draft is refused with, all its fields included: exactly the fault of the first relation that is not accepted, at its first slot relation that is not, or, all relations accepted, of the first node that is not, by its first input slot, its clusters or its first strategy |
| DraftValidation.UpstreamIsFirst | src/kernel/src/models/impls/workflow_draft.rs:223-240 | The upstream slot of a batch is that of the first slot relation that feeds the slot |
| WorkflowModel.FeedingIsFirst | src/kernel/src/models/impls/workflow_draft.rs:223-231 | The relation looked up for a slot is the first of the list that feeds it |
| DraftValidation.GuardMeaning | src/kernel/src/models/impls/workflow_draft.rs:215-221 | What the original-batch guard means as written and as documented |
| DraftValidation.ReliedMeaning | src/kernel/src/models/impls/workflow_draft.rs:83-153 | The relied slots are the target slots of all relations |
| WorkflowLoops.ValidateRelatedNodes | src/kernel/src/models/impls/workflow_draft.rs:83-153 | The nested loops with `relied_input_slots` and early returns compute the specified check |
| WorkflowLoops.ValidatePerNode | src/kernel/src/models/impls/workflow_draft.rs:156-283 | The per-node loops with the mutable `flag` compute the specified check |
| WorkflowLoops.ValidateDraft | src/kernel/src/models/impls/workflow_draft.rs:83-283 | Both validators in sequence |
| WorkflowLoops.ProduceNodeSpec | src/kernel/src/models/impls/workflow_instance.rs:25-73 | The loops that fill a node's slots in place compute the specified node |
| Renaming.UpdateId | src/kernel/src/models/impls/common.rs:12-21 | The loop over the id map computes the sequential rewriting of both ends |
| Renaming.OrderIndependent | src/kernel/src/models/impls/common.rs:12-21 | Every order of the id map substitutes an id as the map says iff its new id is not itself renamed to a third |
| Renaming.FreshIdsSettle | src/kernel/src/models/impls/node_instance.rs:20-41 | New ids disjoint from old ones make renaming simultaneous substitution |
| Submission.Isomorphic | src/kernel/src/models/impls/node_instance.rs:20-88 | The converted relation graph is the draft's under the renaming |
| Submission.SubmissionSound | src/kernel/src/models/impls/workflow_instance.rs:25-73 | For an accepted draft, distinct node ids in it and fresh ids for the instance: completing the inputs of a converted node succeeds iff each of its fed slots takes the kind of input of the first slot of its name; then fed slots hold exactly the upstream slot's prepared id and all others are unchanged; otherwise it returns an error |
| Submission.FilledExactlyWhen | src/kernel/src/models/impls/workflow_instance.rs:25-73 | For an accepted draft, distinct node ids in it and fresh ids for the instance: a slot of a known kind ends with an input iff it came with one or some relation feeds its name at its node |
| Submission.RequiredSlotsFilled | src/kernel/src/models/impls/workflow_draft.rs:156-199 | Under the same assumptions a required slot ends empty iff it came empty and its name is relied on, but by no relation to its node (or the slot is of no known kind); with descriptors unique across nodes every required slot of a known kind ends with an input |
| Submission.AcceptedPairs | src/kernel/src/models/impls/workflow_draft.rs:83-153 | Every feeder of a slot of an accepted draft is a pair of existing slots of one kind |
| SubmissionContents.CompletedHolds | src/kernel/src/models/impls/workflow_instance.rs:25-73 | For any instance, node and sub-task number: after completion a slot holds exactly one id, the one prepared under that number for the upstream slot that feeds it last; the name and batch flag of a file slot, descriptor and optional flag stay; an unfed slot and the rest of the node are unchanged |
| SubmissionContents.CompletesExactly | src/kernel/src/models/impls/workflow_instance.rs:25-73 | Completion succeeds iff for every relation to the node the upstream slot exists, is of the kind of the slot it feeds and has an id under that number |
| SubmissionContents.SubmissionHolds | src/kernel/src/models/impls/workflow_instance.rs:25-73 | For an accepted draft, distinct node ids in it and fresh ids for the instance: a fed slot holds the id drawn for the upstream output slot that feeds it last, and nothing else; an unfed slot is the draft's |
| SubmissionContents.InstanceNode | src/kernel/src/models/impls/node_instance.rs:43-88 | The i-th node of an instance has the fresh id, and name, scheduling, inputs, strategies and outputs of the i-th draft node, each output with the one id drawn for it |
| SubmissionBatch.SharedNameAccepted | src/kernel/src/models/impls/workflow_draft.rs:160-172 | An accepted draft with a required slot that nothing fills: descriptors are compared without their node |
| SubmissionBatch.RepeatedNameFails | src/kernel/src/models/impls/workflow_instance.rs:25-73 | An accepted draft in which one node has a text slot and a file slot of one name: completing its inputs returns an error |
| SubmissionBatch.AcceptedResolves | src/kernel/src/models/impls/workflow_draft.rs:204-280 | For an accepted draft every lookup of the batch count of every instance node succeeds iff each slot batched by an upstream output is fed by a relation to its own node, which validation does not check |
| SubmissionBatch.SubmissionEmits | src/kernel/src/models/impls/workflow_instance.rs:266-300 | An accepted draft parses iff each slot batched by an upstream output is fed at its own node and no cycle of batch sources exists; an unwrap on nothing is reached only when one is not fed at its own node; and when it parses each batched node emits exactly its count of sub-instances, in order |
| SubmissionBatch.AcyclicFromDraft | src/kernel/src/models/impls/node_instance.rs:20-88 | An accepted draft converts to an instance without a cycle of batch sources iff it has none itself |
| SubmissionBatch.SharedBatchAccepted | src/kernel/src/models/impls/workflow_draft.rs:204-280 | A draft of three nodes, two of which name a batched slot alike but only one of which is fed, is accepted under either guard |
| SubmissionBatch.SharedBatchUnwraps | src/kernel/src/models/impls/workflow_instance.rs:244-252 | And parsing its instance reaches the unwrap on nothing |
| SubmissionBatch.MutualBatchAccepted | src/kernel/src/models/impls/workflow_draft.rs:223-279 | A draft whose two nodes batch each other's outputs is accepted |
| SubmissionBatch.MutualBatchDiverges | src/kernel/src/models/impls/workflow_instance.rs:225-263 | And its batch count never returns: it is cut off at every depth of recursion |
| BatchCount.TerminatesExactly | src/kernel/src/models/impls/workflow_instance.rs:225-263 | The recursion terminates iff no cycle of batch edges is reachable |
| BatchCount.AcyclicTerminates | src/kernel/src/models/impls/workflow_instance.rs:225-263 | On an acyclic instance it terminates within as many levels as there are nodes |
| BatchCount.DepthEnough | src/kernel/src/models/impls/workflow_instance.rs:225-263 | A count that is cut off at a depth of as many levels as there are nodes is cut off at every depth: it never returns |
| BatchCount.CountsAreTheProducts | src/kernel/src/models/impls/workflow_instance.rs:225-263 | The counts are the one solution of "count = product of the strategies' factors" |
| BatchCount.ConstantAlongChain | src/kernel/src/models/impls/workflow_instance.rs:243-258 | Along single-strategy batch chains the count is constant |
| BatchCount.SourceIsFirst | src/kernel/src/models/impls/workflow_instance.rs:243-252 | The node a batch comes from is the upstream end of the first relation of the workflow that feeds this very node at that slot |
| NodeInstances.ParseNodeInstances | src/kernel/src/models/impls/workflow_instance.rs:266-300 | The push loop emits each node and its sub-instances, or stops at the first count that reaches an unwrap on nothing or never returns |
| NodeInstances.ParsesExactly | src/kernel/src/models/impls/workflow_instance.rs:266-300 | The nodes are emitted iff every count has a value, and an unwrap is reached only when some lookup has no result |
| NodeInstances.EmittedPerParent | src/kernel/src/models/impls/workflow_instance.rs:282-299 | The sub-instances of a parent are exactly its drawn ids, in order |
| NodeInstances.EmittedNodes | src/kernel/src/models/impls/workflow_instance.rs:266-300 | Where each node and each of its sub-instances stands, and every field of it: id, name, parent flag, parent, workflow and status; a node without strategies has no sub-instances |
| NodeInstances.EmittedCount | src/kernel/src/models/impls/workflow_instance.rs:266-300 | And nothing else is emitted |
| NodeInstances.NodeRepository.Insert | src/kernel/src/services/json_repository.rs:272-280 | Insertion in place: a record of the same id is removed and the new one pushed to the back |
| NodeInstances.NodeRepository.Update | src/kernel/src/services/json_repository.rs:263-271 | An update replaces the record in its place |
| NodeInstances.IndexStable | src/kernel/src/services/json_repository.rs:407-423 | Id- and parent-preserving updates and submissions of other workflows never change a sub-task's position |
| NodeInstances.SubmittedIndexStable | src/kernel/src/services/json_repository.rs:407-423 | The i-th sub-instance emitted for a parent is the i-th of its batch after submission and after any such later run |
| Filler.FillMatchRegex | src/kernel/src/models/impls/common.rs:32-46 | The loop with `current` produces the texts with each match replaced by the decimal form of start plus i times step |
| Filler.NumbersCount | src/kernel/src/models/impls/common.rs:41-44 | The first number is start, and each next one is the 32-bit integer equal to the last plus step modulo 2^32 |
| Filler.TextsEqualExactly | src/kernel/src/models/impls/common.rs:32-46 | Two generated texts are equal iff the pattern does not occur or the two numbers coincide modulo 2^32 |
| Filler.TextsDistinct | src/kernel/src/models/impls/common.rs:32-46 | With an occurring pattern, a non-zero step and no overflow all texts differ |
| Debatch.AllCombos | src/kernel/src/services/workflow_engine/schedule.rs:403-441 | The loops that multiply combinations compute the specified list |
| Debatch.CombosCount | src/kernel/src/services/workflow_engine/schedule.rs:403-441 | The number of combinations is the product of the offers iff no empty offer restarts it |
| Debatch.ChoiceAtRank | src/kernel/src/services/workflow_engine/schedule.rs:403-441 | Which choice each rank holds, digit by digit |
| Debatch.RankIsOnto | src/kernel/src/services/workflow_engine/schedule.rs:403-441 | Every combination of choices has a rank |
| Debatch.RankIsOneToOne | src/kernel/src/services/workflow_engine/schedule.rs:403-441 | Different choices have different ranks |
| Debatch.ParseSubNodes | src/kernel/src/models/impls/workflow_instance.rs:172-186 | The loop over cloned nodes gives each its id, its inputs and its output slot |
| Debatch.UpdateInputs | src/kernel/src/models/impls/workflow_instance.rs:105-133 | The loop that puts the choices of a combination in, one by one, or stops at the first that does not fit |
| Debatch.UpdateMeaning | src/kernel/src/models/impls/workflow_instance.rs:105-133 | After the inputs are put in, each slot holds exactly the last choice of its name, with its other fields kept, and slots of no chosen name are unchanged |
| Debatch.UpdatesExactly | src/kernel/src/models/impls/workflow_instance.rs:105-133 | Putting a combination in succeeds iff every slot of a chosen name is a text slot and the choice a text, or a file slot and the choice a file |
| Debatch.SubNodesExactly | src/kernel/src/models/impls/workflow_instance.rs:172-186 | Sub-nodes are made iff that holds of every combination used; the x-th has the x-th id, one id drawn for each output slot, and everything else of its parent |
| Debatch.EverySubInstanceServed | src/kernel/src/models/impls/workflow_instance.rs:172-186 | With as many sub-instances as the product of the offers there is a combination for each; the sub-nodes are made iff there are none to make or every slot takes all that is offered for it, and the x-th is then made, field by field, for the x-th id and the x-th combination |
| AgentStaging.StagingSafety | src/agent/service/src/run_job.rs:34-335 | In every state of every run: a job is submitted at most once and only with every input on both sides; a completed report is sent at most once, for a use case only after its job completed and with every output on both sides; no sub-task gets both a completed and a failed report |
| AgentStaging.StepSafe | src/agent/service/src/run_job.rs:34-335 | Every service call keeps the safety of every sub-task |
| AgentStaging.RunIfReadySafe | src/agent/service/src/run_job.rs:199-297 | Starting a job when its inputs are staged keeps safety, whatever the launch meets |
| AgentStaging.JobCompletedSafe | src/agent/service/src/run_job.rs:128-173 | A job seen completed sends its outputs, or its report when there are none |
| AgentStaging.UploadDoneSafe | src/agent/service/src/run_job.rs:321-327 | The last upload, and only that, sends the completed report |
| AgentStaging.MoveBackFinds | src/agent/app/src/infrastructure/repository.rs:135-144 | Removing and pushing a record changes what is found under its own id only |
| AgentStaging.FreshInserted | src/agent/app/src/infrastructure/repository.rs:146-173 | Inserting new records appends them in order |
| AgentOrder.SlotAccounting | src/agent/service/src/task_scheduler.rs:73-123 | In every state of every run: the counter is the number of sub-tasks ever dispatched less the reports consumed, and never exceeds a limit; it is the number of sub-tasks under way iff no sub-task had two reports consumed; and no two of one task are under way |
| AgentOrder.CountBelowZero | src/agent/service/src/task_scheduler.rs:243-245 | A run of five calls in which two transfers of one sub-task fail and the counter ends at -1 |
| AgentOrder.SubmissionOrder | src/agent/service/src/task_scheduler.rs:97-101 | In every state of every run: the queued sub-tasks of a task are a tail of the submitted list, in order, everything started before the last one is completed, and a completed task has nothing left |
| AgentOrder.CompletedExactlyWhen | src/agent/service/src/task_scheduler.rs:215-240 | In every run without a limit a task that has not failed is completed iff the reports of all its sub-tasks, at least one, were consumed |
| AgentOrder.TickDoesNothing | src/agent/service/src/task_scheduler.rs:65-71 | In every state of every run the interval tick changes nothing |
| AgentOrder.LimitStrands | src/agent/service/src/task_scheduler.rs:104-107 | A submission leaves its task running with work left and nothing under way iff it brings work while every slot is taken |
| AgentOrder.StrandedExactlyWhen | src/agent/service/src/task_scheduler.rs:48-262 | In every run a task is stranded after a step iff it was before, or the step submits it with work while every slot is taken: no report, transfer or tick strands one |
| AgentOrder.SecondStranded | src/agent/service/src/task_scheduler.rs:104-107 | The run that submits two deployments to an agent with one slot strands the second |
| AgentOrder.StrandedForEver | src/agent/service/src/task_scheduler.rs:104-107 | In every run a stranded task stays stranded with the same work left, whatever slots are freed |
| AgentOrder.StepKeeps | src/agent/service/src/task_scheduler.rs:48-262 | Every step keeps slots and order, and leaves the tasks it does not concern alone |
| AgentOrder.SubmitOrdered | src/agent/service/src/task_scheduler.rs:48-63 | Storing and scheduling new work keeps slots and order |
| AgentRuns.UnderWay | src/agent/service/src/task_scheduler.rs:89-103 | Only the last started sub-task of a task can be under way, and then the task runs |
| AgentRuns.DispatchOrdered | src/agent/service/src/task_scheduler.rs:89-123 | A dispatch on an idle task starts its next sub-task in submission order, or stops at the limit |
| AgentRuns.CompleteConsumed | src/agent/service/src/task_scheduler.rs:215-241 | A completed report frees a slot and moves its task on, or ends it when every sub-task is completed |
| AgentRuns.FailConsumed | src/agent/service/src/task_scheduler.rs:243-262 | A failed report, the first of its sub-task or not, takes the counter down, fails its task and starts nothing |
| AgentRuns.TakenFits | src/agent/app/src/background_service/task_scheduler_runner.rs:14-47 | Taking a report off the queue keeps this: a waiting completed report is the only one of its sub-task, waiting or consumed |
| AgentSlots.FirstIsHead | src/agent/service/src/task_scheduler.rs:97-101 | The sub-task picked from the body is the first queued record of its task |
| AgentSlots.MovedStarts | src/agent/app/src/infrastructure/repository.rs:135-144 | Starting it takes the head off the queued list of its task and changes no other, although the record moves to the back |
| AgentEvents.CollectionLaunched | src/agent/service/src/collection_task.rs:22-49 | A collection takes its slot and reports in its own dispatch |
| AgentEvents.DeployEvent | src/agent/service/src/deploy_software.rs:89-110 | The end of a deployment is written back and reported without touching slots or order |
| AgentEvents.CopyFailedEvent | src/agent/service/src/run_job.rs:315-335 | What a failed copy does leaves slots and order alone |
| AgentCopies.CopyOwn | src/agent/app/src/background_service/file_download_runner.rs:228-279 | A failed copy sends a failed report of its sub-task, and when every other input is on both sides and the job is accepted, appends the job and the report in one call |
| AgentCopies.JobAfterFailure | src/agent/app/src/background_service/file_download_runner.rs:228-279 | In every run, for every step that submits the job of a sub-task: a failed report of that sub-task has been sent by the end of the step iff a copy of one of its inputs failed at that step or before |
| AgentCopies.JobOfTheFailed | src/agent/app/src/background_service/file_download_runner.rs:228-279 | A run of three calls in which a copy fails, is reported, and the job is submitted when the other input arrives |
| AgentEffects.JobObservedDoes | src/agent/service/src/run_job.rs:128-173 | In every run, an observed job: a failed report goes out and the status becomes failed iff the job failed or is unknown; a completed one makes the status completing and either every output is being uploaded, with its command on the channel, or there is none and the completed report goes out; otherwise nothing changes |
| AgentEffects.UploadDoneDoes | src/agent/service/src/run_job.rs:321-327 | In every run a finished upload puts its file on both sides, and the completed report goes out iff that leaves every output on both sides |
| AgentEffects.DownloadDoneDoes | src/agent/service/src/run_job.rs:315-320 | In every run a finished download puts its file on both sides, and when that was the last input the job goes out, or the sub-task fails when its software is missing |
| AgentEffects.TransferFailedDoes | src/agent/service/src/run_job.rs:328-335 | In every run a failed transfer leaves its channel, and its sub-task becomes failed and is reported |
| AgentEffects.CopyFailedDoes | src/agent/service/src/run_job.rs:315-335 | In every run a failed copy fails and reports its sub-task, and then counts as arrived |
| AgentEffects.DeployEndedDoes | src/agent/service/src/deploy_software.rs:89-110 | In every run the end of a deployment leaves its channel, and status and report say how it ended |
| AgentLaunches.LaunchDoes | src/agent/service/src/task_scheduler.rs:48-262 | In every run a queued sub-task stops waiting only in a step that submits, ticks or consumes a report, and is then as its service leaves it: a collection ended, status and report saying what it came to; a deployment commanded; a use case with its inputs marked and sent for, or without inputs its job started |
| AgentLaunches.SubmitDoes | src/agent/service/src/task_scheduler.rs:48-63 | In every run each sub-task of a submission is afterwards queued as it was stored, its inputs remote and its outputs to be made, or handed over |
| AgentHost.Host.UpdateSub | src/agent/app/src/infrastructure/repository.rs:135-144 | Update in place: the record is removed and pushed to the back |
| AgentHost.Host.InsertSub | src/agent/app/src/infrastructure/repository.rs:146-173 | Insert in place |
| AgentHost.Host.InternalRunJob | src/agent/service/src/run_job.rs:199-297 | The whole new state after a start attempt |
| AgentHost.Host.EnqueueUsecase | src/agent/service/src/run_job.rs:34-61 | The whole new state after a use case is handed over |
| AgentHost.Host.Fetch | src/agent/service/src/run_job.rs:44-56 | The loop that marks and sends for every input |
| AgentHost.Host.Refresh | src/agent/service/src/run_job.rs:128-173 | The whole new state after a job state is observed |
| AgentHost.Host.Deliver | src/agent/service/src/run_job.rs:158-170 | The loop that sends and marks every output |
| AgentHost.Host.OnDownloaded | src/agent/service/src/run_job.rs:315-320 | A finished download marks its file and tries to start the job |
| AgentHost.Host.OnUploaded | src/agent/service/src/run_job.rs:321-327 | A finished upload marks its file and reports when it was the last |
| AgentHost.Host.OnTransferFailed | src/agent/service/src/run_job.rs:328-335 | A failed transfer fails and reports its sub-task |
| AgentHost.Host.Collect | src/agent/service/src/collection_task.rs:22-49 | A collection is written back and reported |
| AgentHost.Host.Deploy | src/agent/service/src/deploy_software.rs:27-43 | A deployment command is sent and the sub-task marked running |
| AgentHost.Host.OnDeployed | src/agent/service/src/deploy_software.rs:89-110 | The end of a deployment is written back and reported |
| AgentHost.Host.Pick | src/agent/service/src/task_scheduler.rs:89-123 | The scan of the body, the limit, the slot and the hand-over |
| AgentHost.Host.Schedule | src/agent/service/src/task_scheduler.rs:73-123 | Scheduling one task by id |
| AgentHost.Host.Store | src/agent/app/src/infrastructure/repository.rs:90-100 | The insertion loop over the body, then the task itself |
| AgentHost.Host.SubmitTask | src/agent/service/src/task_scheduler.rs:48-63 | Storing and scheduling a submission |
| AgentHost.Host.OnSubTaskCompleted | src/agent/service/src/task_scheduler.rs:215-241 | The whole new state after a completed report |
| AgentHost.Host.OnSubTaskFailed | src/agent/service/src/task_scheduler.rs:243-262 | The whole new state after a failed report |
| AgentHost.Host.ServeDownload | src/agent/app/src/background_service/file_download_runner.rs:192-287 | A download command taken off its channel: run on success, reported on failure, reported and run after a failed copy |
| AgentHost.Host.Serve | src/agent/service/src/task_scheduler.rs:48-262 | Any call served by a valid host leaves it valid: staging safety, slots and order hold of the object after every history of calls |
| Multipart.IdPatternIsExact | src/kernel/src/services/file/multipart.rs:16-28 | The glob of an id matches exactly the keys of that id |
| Multipart.HashPatternFindsItself | src/kernel/src/services/file/multipart.rs:25-28 | The glob of a hash matches every key with that hash |
| Multipart.HashPatternFinds | src/kernel/src/services/file/multipart.rs:25-28 | The glob of a hash without a star matches the key of another hash iff that one ends with it behind an underscore |
| Multipart.HashPatternIsExact | src/kernel/src/services/file/multipart.rs:25-28 | So the glob of a hash matches no key of another hash that has no underscore, as a printed digest has none |
| Multipart.CreateKeeps | src/kernel/src/services/file/multipart.rs:32-64 | Creating keeps one record per id and hash and cached bytes for every marked part |
| Multipart.CompletePartKeeps | src/kernel/src/services/file/multipart.rs:66-135 | Completing a part keeps them too |
| Multipart.RemoveKeeps | src/kernel/src/services/file/multipart.rs:144-148 | Cancelling keeps them too |
| Multipart.CreateMeaning | src/kernel/src/services/file/multipart.rs:32-64 | A creation enters a record with no part in iff no key matches its hash pattern and the id has no record; nothing else changes |
| Multipart.PartRefused | src/kernel/src/services/file/multipart.rs:66-80 | A part is turned down iff its id has no record or its number is out of range; it is cached all the same and nothing else changes |
| Multipart.RemoveMeaning | src/kernel/src/services/file/multipart.rs:144-148 | Cancelling leaves no record of the id and, if it had one, none of its cached parts; records and parts of other ids and all merged files stay |
| Multipart.ExpireMeaning | src/kernel/src/services/file/multipart.rs:32-64 | A lease that runs out takes its record and nothing else |
| MultipartRuns.EveryHistory | src/kernel/src/services/file/multipart.rs:32-148 | In every interleaving of create, complete, remove and expiry: one record per id and per hash, marked parts are cached until the merge, and every merged file hashes to a hash whose creation for its id the service accepted |
| MultipartRuns.AcceptedAfterRemove | src/kernel/src/services/file/multipart.rs:32-64 | A cancelled id can be created again with a hash iff no record of another id matches the pattern of the hash |
| MultipartRuns.Reassembly | src/kernel/src/services/file/multipart.rs:66-135 | In any order with repeats, each call before the end returns exactly the sorted missing indexes; the completing call writes the latest bytes in index order iff their hash matches; after a mismatch the upload stays open |
| MultipartRuns.ResendCompletes | src/kernel/src/services/file/multipart.rs:104-135 | Whatever was sent before, sending again only the parts that were wrong completes the upload |
| MultipartRuns.OrderIndependent | src/kernel/src/services/file/multipart.rs:104-122 | What is assembled depends on the latest bytes per part only |
| MultipartRuns.ConsistentParts | src/kernel/src/services/file/multipart.rs:66-80 | A part always sent with the same bytes is assembled with them |
| MultipartRuns.RepeatAfterMerge | src/kernel/src/services/file/multipart.rs:104-135 | What a part sent again after the completing call returns, exactly |
| MultipartService.MultipartService.Create | src/kernel/src/services/file/multipart.rs:32-64 | The new store of a creation, in place |
| MultipartService.MultipartService.CompletePart | src/kernel/src/services/file/multipart.rs:66-135 | The new store and the reply of a completed part, in place |
| MultipartService.MultipartService.ReadParts | src/kernel/src/services/file/multipart.rs:104-122 | The loop that extends the buffer part by part, or fails at the first missing one |
| MultipartService.MultipartService.Remove | src/kernel/src/services/file/multipart.rs:144-148 | The new store of a cancellation, in place |
| BlockDownload.BlockEnds | src/agent/app/src/background_service/file_download_runner.rs:155-188 | Every block's inclusive range is non-empty, within the file, no longer than the block size, and computed without underflow |
| BlockDownload.OneBlockPerByte | src/agent/app/src/background_service/file_download_runner.rs:155-188 | Every byte lies in exactly one block |
| BlockDownload.RangeReachesStore | src/agent/app/src/background_service/file_download_runner.rs:359-375 | The range the agent prints for a block is the range the store parses |
| BlockDownload.WriteAt | src/agent/app/src/background_service/file_download_runner.rs:400-413 | A positional write changes its window and nothing else |
| BlockDownload.DownloadTask | src/agent/app/src/background_service/file_download_runner.rs:359-414 | One block task: up to four tries, the write once one is answered, and how it ends |
| BlockDownload.Join | src/agent/app/src/background_service/file_download_runner.rs:180-188 | The loop over the joins, which drops what the tasks returned |
| BlockDownload.Run | src/agent/app/src/background_service/file_download_runner.rs:155-188 | The block tasks in any completion order and the loop over their joins: what is on disk, and whether success is reported |
| BlockDownload.FourTries | src/agent/app/src/background_service/file_download_runner.rs:370-396 | A block answered on any of four tries is written, one that failed four times is not and its task ends in an error |
| BlockDownload.CompleteDownload | src/agent/app/src/background_service/file_download_runner.rs:155-414 | When every block is answered in one of its tries, the disk holds exactly the file, in any completion order, and success is reported |
| BlockDownload.LossGoesUnnoticed | src/agent/app/src/background_service/file_download_runner.rs:180-188 | Success is reported iff no block task died; a wrong file is reported as a success iff none died and a block never answered holds a byte other than zero |
| RangeHeader.GetRanges | src/co/src/controllers/file_storage.rs:729-769 | The parsing loop with its early returns computes the specified ranges |
| RangeHeader.HeaderRoundTrip | src/co/src/controllers/file_storage.rs:729-769 | Parsing the printed form of any non-empty list of 64-bit pairs returns the list |
| RangeHeader.AcceptedIsNonEmpty | src/co/src/controllers/file_storage.rs:729-769 | An accepted header has at least one range |
| RangeHeader.AcceptedExactly | src/co/src/controllers/file_storage.rs:729-769 | A header is read as a list of ranges iff it begins with "bytes=" and each piece between ", " consists of the start, a '-', the end and nothing else before the next '-', both numbers of at most 64 bits |
| RangeHeader.RefusedExactly | src/co/src/controllers/file_storage.rs:729-769 | A header is refused iff it does not begin so or some piece reads as no range |
| RangeHeader.OpenEndRefused | src/co/src/controllers/file_storage.rs:737-766 | "bytes=500-" is refused |
| Text.SplitParts | src/co/src/controllers/file_storage.rs:742-743 | The pieces joined again are the text, and none holds the separator |

## Left out

* HTTP, Kafka, S3, Redis, SSH, websockets, login, DI, database entities: plumbing with no property of its own.
* `parse_task`: requirements, facility, the inserted deployment sub-task and the repositories' own errors; the task body of a use case is its arguments, environments, files, standard input and collections.
* Which of its messages `package_validate` refuses a package with; the exceptions of the draft validator are modelled.
* The kind, description, requirements and additional data of a node, copied unchanged through conversion, parsing and splitting.
- PackageSafety.PanicsExactlyOnFlags: for a node that fits the package; what a node that does not fit makes of it is not stated, because an earlier returned error can hide a later panic.
* `pause_task`, `continue_task`, `delete_task` and the clean-up of completed tasks: their guards select finished sub-tasks too, so the run theorems are for runs without these steps; no sub-task is ever `Suspended` in them.
* Sub-tasks of a type no service is registered for: a dispatch takes a slot and hands the sub-task to nobody (`AgentModel.Enqueue` on `Unsupported`); runs submit supported types only.
* The file-system watcher (`file_system_watch_runner.rs:52-75`) calls `refresh_status` for any id written to a signal file, also of a sub-task that has already ended, which would repeat its report. The runs are those without it: a job is observed through `refresh_all_status` only, while its sub-task is `Running`.
* Files of the agent are a map by id: the order of the file vector is not modelled.
* Service calls are atomic; sleeps, timeouts and progress are not modelled. A block task's seek and write are one step, although the file handles cloned for the tasks share one offset.
* Machine integers are unbounded except where a bound matters: the slot counter is an `int` whose fall below zero is what the `u32` cannot hold, `AutoNumber` wraps at 32 bits, range ends are 64-bit, subtractions that could underflow are checked.
* The `Enumeration` filler (random), `get_batch_inputs`, `schedule_next_nodes` and billing.
* The uploader's chunking (`file_upload_runner.rs`).
* Glob patterns other than `*`.
* Short or erroneous HTTP responses inside a block download, other than the lost block above.
