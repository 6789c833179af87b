/** `parse_task`: compiles a package and a node to a runnable task, trusting the validator. */
module SoftwareComputing {
  import opened Basics
  import opened FormatTables
  import opened PackageModel
  import opened Placeholder
  import Text
  import W = WorkflowModel

  type Uuid = nat

  datatype Form = ById(id: Uuid) | ByContent(content: string)

  datatype FileInfo = InputFile(path: string, isPackage: bool, form: Form)
                    | OutputFile(id: Uuid, path: string, isPackage: bool, optional: bool)

  datatype StdIn = StdText(text: string) | StdFile(path: string) | StdNone

  datatype TaskFrom = TaskFile(path: string) | TaskStdout | TaskStderr

  datatype TaskTo = TaskToFile(path: string, id: Uuid) | TaskToText(id: Uuid)

  datatype Collect = Collect(from: TaskFrom, rule: CollectRule, to: TaskTo, optional: bool)

  /** The task while it is being compiled. */
  datatype Build = Build(args: map<nat, Fill<Option<string>>>, envs: map<string, Fill<Option<string>>>,
                         templates: map<string, map<string, Option<string>>>, stdin: StdIn,
                         files: seq<FileInfo>, collects: seq<Collect>)

  datatype Task = Task(arguments: seq<string>, environments: map<string, string>,
                       files: seq<FileInfo>, stdin: StdIn, collects: seq<Collect>)

  /** What a task is compiled against: the node, the stored texts and the template engine. */
  datatype Runtime = Runtime(node: W.NodeSpec, texts: map<Uuid, string>,
                             render: (string, map<string, Option<string>>) -> Option<string>)

  const NOTHING := Build(map[], map[], map[], StdNone, [], [])

  // ---------------------------------------------------------------- the input of a slot

  datatype InContent = InContent(literal: string, infiles: seq<FileInfo>)

  function Texts(rt: Runtime, ids: seq<Uuid>): Outcome<seq<string>, Refusal> {
    if ids == [] then Done([])
    else if ids[0] !in rt.texts then Outcome.Failed(NoText)
    else
      var rest :- Texts(rt, ids[1..]);
      Done([rt.texts[ids[0]]] + rest)
  }

  function InFileName(f: W.FileInput, expected: Option<string>): string {
    if expected.Some? then expected.value else f.name
  }

  function InFileNames(inputs: seq<W.FileInput>, expected: Option<string>): seq<string> {
    if inputs == [] then [] else [InFileName(inputs[0], expected)] + InFileNames(inputs[1..], expected)
  }

  function InFiles(inputs: seq<W.FileInput>, expected: Option<string>, isBatch: bool): seq<FileInfo> {
    if inputs == [] then []
    else
      var info := InputFile(InFileName(inputs[0], expected), isBatch, ById(inputs[0].fileId));
      [info] + InFiles(inputs[1..], expected, isBatch)
  }

  predicate HasContents(slot: W.InputSlot) {
    match slot.kind
    case TextSlot(texts) => texts.Some?
    case FileSlot(inputs, _, _) => inputs.Some?
    case UnknownSlot => false
  }

  /** `get_content`. An unknown kind, and a required slot without input, panic. */
  function GetContent(rt: Runtime, d: string): Outcome<Option<InContent>, Refusal> {
    var slot :- FindUnwrap<W.InputSlot, string, Refusal>(rt.node.inputs, W.InputName, d);
    if slot.kind.UnknownSlot? then Panicked
    else if !HasContents(slot) && slot.optional then Done(None)
    else if !HasContents(slot) then Panicked
    else
      match slot.kind
      case TextSlot(texts) =>
        var values :- Texts(rt, texts.value);
        Done(Some(InContent(Text.Join(values, " "), [])))
      case FileSlot(inputs, expected, isBatch) =>
        Done(Some(InContent(Text.Join(InFileNames(inputs.value, expected), " "),
                            InFiles(inputs.value, expected, isBatch))))
  }

  function Literal(content: Option<InContent>): Option<string> {
    if content.Some? then Some(content.value.literal) else None
  }

  // ---------------------------------------------------------------- flags

  function FlagArguments(pkg: Package, b: Build, flags: seq<(string, nat)>): Outcome<Build, Refusal>
    decreases |flags|
  {
    if flags == [] then Done(b)
    else
      var a :- FindUnwrap<Argument, string, Refusal>(pkg.arguments, ArgumentName, flags[0].0);
      var sort := flags[0].1;
      FlagArguments(pkg, if sort in b.args then b
                         else b.(args := b.args[sort := Fill(a.valueFormat, map[])]), flags[1..])
  }

  function FlagEnvironments(pkg: Package, b: Build, flags: seq<string>): Outcome<Build, Refusal>
    decreases |flags|
  {
    if flags == [] then Done(b)
    else
      var e :- FindUnwrap<Environment, string, Refusal>(pkg.environments, EnvironmentName, flags[0]);
      FlagEnvironments(pkg,
                       if e.key in b.envs then b
                       else b.(envs := b.envs[e.key := Fill(e.valueFormat, map[])]), flags[1..])
  }

  // ---------------------------------------------------------------- references

  /** A reference mounted with a value; `stdin` is what standard input becomes. */
  function ParseRef(pkg: Package, b: Build, ref: Ref, value: Option<string>,
                    stdin: Outcome<StdIn, Refusal>): Outcome<Build, Refusal> {
    match ref
    case ArgRef(d, sort, nth) =>
      var a :- FindUnwrap<Argument, string, Refusal>(pkg.arguments, ArgumentName, d);
      Done(b.(args := Put(b.args, sort, a.valueFormat, nth, value)))
    case EnvRef(d, nth) =>
      var e :- FindUnwrap<Environment, string, Refusal>(pkg.environments, EnvironmentName, d);
      Done(b.(envs := Put(b.envs, e.key, e.valueFormat, nth, value)))
    case StdInRef =>
      var s :- stdin;
      Done(b.(stdin := s))
    case TemplateRef(t, keys) => Done(b.(templates := PutKeys(b.templates, t, keys, value)))
  }

  /** Standard input from a text slot unwraps the input; from a file slot it may be absent. */
  function TextStdIn(content: Option<InContent>): Outcome<StdIn, Refusal> {
    if content.Some? then Done(StdText(content.value.literal)) else Panicked
  }

  function FileStdIn(content: Option<InContent>): Outcome<StdIn, Refusal> {
    Done(if content.Some? then StdFile(content.value.literal) else StdNone)
  }

  function ParseRefs(pkg: Package, b: Build, refs: seq<Ref>, value: Option<string>,
                     stdin: Outcome<StdIn, Refusal>): Outcome<Build, Refusal>
    decreases |refs|
  {
    if refs == [] then Done(b)
    else
      var c :- ParseRef(pkg, b, refs[0], value, stdin);
      ParseRefs(pkg, c, refs[1..], value, stdin)
  }

  /** The default input files of a slot were dealt with when its input was fetched. */
  function ParseFileRefs(pkg: Package, b: Build, refs: seq<FileRef>, value: Option<string>,
                         stdin: Outcome<StdIn, Refusal>): Outcome<Build, Refusal>
    decreases |refs|
  {
    if refs == [] then Done(b)
    else
      match refs[0]
      case FileInputRef(_) => ParseFileRefs(pkg, b, refs[1..], value, stdin)
      case Mount(r) =>
        var c :- ParseRef(pkg, b, r, value, stdin);
        ParseFileRefs(pkg, c, refs[1..], value, stdin)
  }

  function ParseSlot(pkg: Package, rt: Runtime, b: Build, slot: InputSlot): Outcome<Build, Refusal> {
    var content :- GetContent(rt, slot.descriptor);
    var c := if content.Some? then b.(files := b.files + content.value.infiles) else b;
    match slot
    case TextInput(_, refs) => ParseRefs(pkg, c, refs, Literal(content), TextStdIn(content))
    case FileInput(_, refs) => ParseFileRefs(pkg, c, refs, Literal(content), FileStdIn(content))
  }

  function ParseSlots(pkg: Package, rt: Runtime, b: Build, slots: seq<InputSlot>): Outcome<Build, Refusal>
    decreases |slots|
  {
    if slots == [] then Done(b)
    else
      var c :- ParseSlot(pkg, rt, b, slots[0]);
      ParseSlots(pkg, rt, c, slots[1..])
  }

  // ---------------------------------------------------------------- templates

  function ParseContents(pkg: Package, b: Build, refs: seq<Ref>, filled: string): Outcome<Build, Refusal>
    decreases |refs|
  {
    if refs == [] then Done(b)
    else if refs[0].TemplateRef? then Panicked
    else
      var c :- ParseRef(pkg, b, refs[0], Some(filled), Done(StdText(filled)));
      ParseContents(pkg, c, refs[1..], filled)
  }

  function ParseName(pkg: Package, b: Build, ref: FileRef, fileName: string, filled: string): Outcome<Build, Refusal> {
    match ref
    case Mount(TemplateRef(_, _)) => Panicked
    case Mount(r) => ParseRef(pkg, b, r, Some(fileName), Done(StdFile(fileName)))
    case FileInputRef(d) =>
      var m :- FindUnwrap<FileMaterial, string, Refusal>(pkg.fileInputs, MaterialName, d);
      Done(b.(files := b.files + [InputFile(m.kind.path, m.kind.Batched?, ByContent(filled))]))
  }

  function ParseNames(pkg: Package, b: Build, names: seq<FileRef>, fileName: string,
                      filled: string): Outcome<Build, Refusal>
    decreases |names|
  {
    if names == [] then Done(b)
    else
      var c :- ParseName(pkg, b, names[0], fileName, filled);
      ParseNames(pkg, c, names[1..], fileName, filled)
  }

  /** The keys a template is filled with. */
  function KeysOf(b: Build, t: string): map<string, Option<string>> {
    if t in b.templates then b.templates[t] else map[]
  }

  function ParseTemplate(pkg: Package, rt: Runtime, b: Build, t: string): Outcome<Build, Refusal> {
    var file :- FindUnwrap<TemplateFile, string, Refusal>(pkg.templates, TemplateName, t);
    var info :- FindUnwrap<TemplateInfo, string, Refusal>(pkg.infos, InfoName, t);
    var filled := rt.render(info.content, KeysOf(b, t));
    if filled.None? then Outcome.Failed(RenderError)
    else
      var c :- ParseContents(pkg, b, file.asContent, filled.value);
      var d := if NamesAFile(file.asFileName)
          then c.(files := c.files + [InputFile(info.fileName, false, ByContent(filled.value))]) else c;
      ParseNames(pkg, d, file.asFileName, info.fileName, filled.value)
  }

  function ParseTemplates(pkg: Package, rt: Runtime, b: Build, order: seq<string>): Outcome<Build, Refusal>
    decreases |order|
  {
    if order == [] then Done(b)
    else
      var c :- ParseTemplate(pkg, rt, b, order[0]);
      ParseTemplates(pkg, rt, c, order[1..])
  }

  // ---------------------------------------------------------------- outputs

  /** The path an input slot appoints, if any. */
  function Appoint(rt: Runtime, appointed: AppointedBy): Outcome<Option<string>, Refusal> {
    match appointed
    case ByMaterial => Done(None)
    case BySlot(d) =>
      var slot :- FindUnwrap<W.InputSlot, string, Refusal>(rt.node.inputs, W.InputName, d);
      match slot.kind
      case TextSlot(texts) =>
        if texts.None? || texts.value == [] then Panicked
        else if texts.value[0] !in rt.texts then Outcome.Failed(NoText)
        else Done(Some(rt.texts[texts.value[0]]))
      case _ => Panicked
  }

  function PathFor(alter: Option<string>, kind: FileKind): string {
    if alter.Some? then alter.value else kind.path
  }

  /** The path of the file a collector reads; nothing found leaves it empty. */
  function CollectedPath(pkg: Package, rt: Runtime, outputs: seq<OutputSlot>, d: string): Outcome<string, Refusal> {
    if outputs == [] then Done("")
    else if outputs[0].FileOutput? && outputs[0].descriptor == d then
      match outputs[0].origin
      case CollectedOut(_) => Panicked
      case UsecaseOut(m, appointed) =>
        var material :- FindUnwrap<FileMaterial, string, Refusal>(pkg.fileOutputs, MaterialName, m);
        var alter :- Appoint(rt, appointed);
        Done(PathFor(alter, material.kind))
    else CollectedPath(pkg, rt, outputs[1..], d)
  }

  function ParseSource(pkg: Package, rt: Runtime, from: CollectFrom): Outcome<TaskFrom, Refusal> {
    match from
    case FromFile(d) =>
      var path :- CollectedPath(pkg, rt, pkg.outputs, d);
      Done(TaskFile(path))
    case FromStdout => Done(TaskStdout)
    case FromStderr => Done(TaskStderr)
  }

  /** The first id prepared for an output slot of that kind. */
  function PreparedId(rt: Runtime, d: string, kind: W.OutKind): Outcome<Uuid, Refusal> {
    var slot :- FindUnwrap<W.SpecOutput, string, Refusal>(rt.node.outputs, W.SpecOutName, d);
    if slot.kind != kind then Outcome.Failed(WrongKind)
    else if slot.prepared == [] then Panicked
    else Done(slot.prepared[0])
  }

  function ParseOutput(pkg: Package, rt: Runtime, b: Build, out: OutputSlot): Outcome<Build, Refusal> {
    match out
    case TextOutput(d, c, optional) =>
      var collector :- FindUnwrap<Collector, string, Refusal>(pkg.collectors, CollectorName, c);
      var from :- ParseSource(pkg, rt, collector.from);
      if !collector.to.ToText? then Panicked
      else
        var id :- PreparedId(rt, d, W.TextOut);
        Done(b.(collects := b.collects + [Collect(from, collector.rule, TaskToText(id), optional)]))
    case FileOutput(d, origin, optional) =>
      var _ :- FindUnwrap<W.SpecOutput, string, Refusal>(rt.node.outputs, W.SpecOutName, d);
      match origin
      case CollectedOut(c) =>
        var collector :- FindUnwrap<Collector, string, Refusal>(pkg.collectors, CollectorName, c);
        var from :- ParseSource(pkg, rt, collector.from);
        if !collector.to.ToFile? then Panicked
        else
          var id :- PreparedId(rt, d, W.FileOut);
          Done(b.(collects := b.collects
                  + [Collect(from, collector.rule, TaskToFile(collector.to.file.path, id), optional)]))
      case UsecaseOut(m, appointed) =>
        var material :- FindUnwrap<FileMaterial, string, Refusal>(pkg.fileOutputs, MaterialName, m);
        var alter :- Appoint(rt, appointed);
        var id :- PreparedId(rt, d, W.FileOut);
        Done(b.(files := b.files + [OutputFile(id, PathFor(alter, material.kind), material.kind.Batched?, optional)]))
  }

  function ParseOutputs(pkg: Package, rt: Runtime, b: Build, outputs: seq<OutputSlot>): Outcome<Build, Refusal>
    decreases |outputs|
  {
    if outputs == [] then Done(b)
    else
      var c :- ParseOutput(pkg, rt, b, outputs[0]);
      ParseOutputs(pkg, rt, c, outputs[1..])
  }

  // ---------------------------------------------------------------- the whole

  function FilledFormat(f: Fill<Option<string>>): string {
    Filled(f.format, f.fills)
  }

  function ArgumentsAt(args: map<nat, Fill<Option<string>>>, sorts: seq<nat>): (r: seq<string>)
    requires forall k :: k in sorts ==> k in args
    ensures |r| == |sorts| && forall i :: 0 <= i < |r| ==> r[i] == FilledFormat(args[sorts[i]])
  {
    seq(|sorts|, i requires 0 <= i < |sorts| => FilledFormat(args[sorts[i]]))
  }

  /** The arguments in the order of their sorts, each filled. */
  function Arguments(args: map<nat, Fill<Option<string>>>): seq<string> {
    ArgumentsAt(args, Ascending(args.Keys))
  }

  function Environments(envs: map<string, Fill<Option<string>>>): map<string, string> {
    map k | k in envs :: FilledFormat(envs[k])
  }

  /** The tables and lists before the formats are filled, the used templates iterated in the order
      given. */
  function Compile(pkg: Package, rt: Runtime, order: seq<string>): Outcome<Build, Refusal> {
    var b :- EnteredFlags(pkg);
    CompileFrom(pkg, rt, order, b)
  }

  function EnteredFlags(pkg: Package): Outcome<Build, Refusal> {
    var a :- FlagArguments(pkg, NOTHING, pkg.flagArguments);
    FlagEnvironments(pkg, a, pkg.flagEnvironments)
  }

  function CompileFrom(pkg: Package, rt: Runtime, order: seq<string>, b: Build): Outcome<Build, Refusal> {
    var c :- ParseSlots(pkg, rt, b, pkg.slots);
    var d :- ParseTemplates(pkg, rt, c, order);
    ParseOutputs(pkg, rt, d, pkg.outputs)
  }

  /** `parse_task` */
  function ParseTask(pkg: Package, rt: Runtime, order: seq<string>): Outcome<Task, Refusal> {
    var b :- Compile(pkg, rt, order);
    Done(Task(Arguments(b.args), Environments(b.envs), b.files, b.stdin, b.collects))
  }

  // ---------------------------------------------------------------- what a validated package can rely on

  ghost predicate FlagsResolve(pkg: Package) {
    && (forall f :: f in pkg.flagArguments ==> Find(pkg.arguments, ArgumentName, f.0).Some?)
    && forall f :: f in pkg.flagEnvironments ==> Find(pkg.environments, EnvironmentName, f).Some?
  }

  /** A slot of the node fit for one of the use case: of a known kind, with an input when it is required
      or wired to standard input as a text. */
  ghost predicate SlotFits(rt: Runtime, slot: InputSlot) {
    var s := Find(rt.node.inputs, W.InputName, slot.descriptor);
    && s.Some? && !s.value.kind.UnknownSlot?
    && (!s.value.optional || (slot.TextInput? && StdInRef in slot.refs) ==> HasContents(s.value))
  }

  /** A slot that appoints a path: a text slot with at least one text. */
  ghost predicate AppointmentFits(rt: Runtime, appointed: AppointedBy) {
    appointed.BySlot? ==>
      var s := Find(rt.node.inputs, W.InputName, appointed.descriptor);
      s.Some? && s.value.kind.TextSlot? && s.value.kind.texts.Some? && s.value.kind.texts.value != []
  }

  ghost predicate OutputFits(rt: Runtime, out: OutputSlot) {
    var s := Find(rt.node.outputs, W.SpecOutName, out.descriptor);
    && s.Some? && s.value.prepared != []
    && (out.FileOutput? && out.origin.UsecaseOut? ==> AppointmentFits(rt, out.origin.appointed))
  }

  ghost predicate Conforms(pkg: Package, rt: Runtime) {
    && (forall s :: s in pkg.slots ==> SlotFits(rt, s))
    && forall o :: o in pkg.outputs ==> OutputFits(rt, o)
  }
}
