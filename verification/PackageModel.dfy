/** Use-case packages: the software's materials and the use case that wires slots, templates and
    outputs to them. */
module PackageModel {
  import opened Basics
  import opened FormatTables

  datatype FileKind = Normal(path: string) | Batched(path: string)

  function PathOf(k: FileKind): string { k.path }

  datatype Argument = Argument(descriptor: string, valueFormat: string)

  datatype Environment = Environment(descriptor: string, key: string, valueFormat: string)

  /** A file the software reads or writes by default. */
  datatype FileMaterial = FileMaterial(descriptor: string, kind: FileKind)

  /** What a text is mounted to. */
  datatype Ref = ArgRef(descriptor: string, sort: nat, nth: nat)
               | EnvRef(descriptor: string, nth: nat)
               | StdInRef
               | TemplateRef(descriptor: string, keys: seq<string>)

  /** What a file is mounted to: the same, or a default input file. */
  datatype FileRef = Mount(ref: Ref) | FileInputRef(descriptor: string)

  datatype InputSlot = TextInput(descriptor: string, refs: seq<Ref>)
                     | FileInput(descriptor: string, fileRefs: seq<FileRef>)

  datatype TemplateFile = TemplateFile(descriptor: string, asContent: seq<Ref>, asFileName: seq<FileRef>)

  datatype TemplateInfo = TemplateInfo(descriptor: string, content: string, fileName: string)

  datatype AppointedBy = ByMaterial | BySlot(descriptor: string)

  datatype FileOutOrigin = CollectedOut(descriptor: string) | UsecaseOut(material: string, appointed: AppointedBy)

  datatype OutputSlot = TextOutput(descriptor: string, collector: string, optional: bool)
                      | FileOutput(descriptor: string, origin: FileOutOrigin, optional: bool)

  datatype CollectFrom = FromFile(slot: string) | FromStdout | FromStderr

  datatype CollectTo = ToFile(file: FileKind) | ToText

  datatype CollectRule = Regex(pattern: string) | BottomLines(count: nat) | TopLines(count: nat)

  datatype Collector = Collector(descriptor: string, from: CollectFrom, to: CollectTo, rule: CollectRule)

  /** The flags are in the order their map is iterated in. */
  datatype Package = Package(arguments: seq<Argument>, environments: seq<Environment>,
                             fileInputs: seq<FileMaterial>, fileOutputs: seq<FileMaterial>,
                             slots: seq<InputSlot>, templates: seq<TemplateFile>, infos: seq<TemplateInfo>,
                             outputs: seq<OutputSlot>, collectors: seq<Collector>,
                             flagArguments: seq<(string, nat)>, flagEnvironments: seq<string>)

  /** Why a package, or a node that uses it, is turned down. */
  datatype Refusal = NoMaterial | NoTemplate | NoSlot | NoCollector | Unimplemented | Mismatched | BadSort
                   | NoText | RenderError | WrongKind

  function ArgumentName(a: Argument): string { a.descriptor }
  function EnvironmentName(e: Environment): string { e.descriptor }
  function MaterialName(m: FileMaterial): string { m.descriptor }
  function TemplateName(t: TemplateFile): string { t.descriptor }
  function InfoName(t: TemplateInfo): string { t.descriptor }
  function CollectorName(c: Collector): string { c.descriptor }
  function SlotName(s: InputSlot): string { s.descriptor }

  /** Whether the content of a template becomes a file of its own. */
  predicate NamesAFile(names: seq<FileRef>) {
    !(names == [] || (|names| == 1 && names[0].FileInputRef?))
  }

  // ---------------------------------------------------------------- well-formed packages

  predicate Resolves(pkg: Package, ref: Ref) {
    match ref
    case ArgRef(d, _, _) => Find(pkg.arguments, ArgumentName, d).Some?
    case EnvRef(d, _) => Find(pkg.environments, EnvironmentName, d).Some?
    case _ => true
  }

  predicate FileResolves(pkg: Package, ref: FileRef) {
    match ref
    case Mount(r) => Resolves(pkg, r)
    case FileInputRef(d) => Find(pkg.fileInputs, MaterialName, d).Some?
  }

  predicate SlotResolves(pkg: Package, slot: InputSlot) {
    match slot
    case TextInput(_, refs) => forall r :: r in refs ==> Resolves(pkg, r)
    case FileInput(_, refs) => forall r :: r in refs ==> FileResolves(pkg, r)
  }

  /** A template cannot be mounted to a template. */
  predicate MountsDirectly(ref: FileRef) {
    !(ref.Mount? && ref.ref.TemplateRef?)
  }

  predicate NamesResolve(pkg: Package, names: seq<FileRef>) {
    forall r :: r in names ==> MountsDirectly(r) && FileResolves(pkg, r)
  }

  /** A template that some slot fills. */
  predicate TemplateResolves(pkg: Package, t: string) {
    var file := Find(pkg.templates, TemplateName, t);
    && file.Some? && Find(pkg.infos, InfoName, t).Some?
    && (forall r :: r in file.value.asContent ==> !r.TemplateRef? && Resolves(pkg, r))
    && NamesResolve(pkg, file.value.asFileName)
  }

  /** The first File output slot of that name. */
  function FileOutputNamed(outputs: seq<OutputSlot>, d: string): (r: Option<OutputSlot>)
    ensures r.Some? ==> r.value in outputs && r.value.FileOutput? && r.value.descriptor == d
  {
    if outputs == [] then None
    else if outputs[0].FileOutput? && outputs[0].descriptor == d then Some(outputs[0])
    else FileOutputNamed(outputs[1..], d)
  }

  /** The slot that appoints a path is a text slot: no file slot of that name comes before it. */
  predicate AppointsText(slots: seq<InputSlot>, d: string) {
    var s := Find(slots, SlotName, d);
    s.Some? && s.value.TextInput?
  }

  /** A collector's source: for a text output the slot that appoints the collected file is checked too. */
  predicate SourceResolves(pkg: Package, from: CollectFrom, isText: bool) {
    from.FromFile? ==>
      var out := FileOutputNamed(pkg.outputs, from.slot);
      && out.Some? && out.value.origin.UsecaseOut?
      && Find(pkg.fileOutputs, MaterialName, out.value.origin.material).Some?
      && (isText && out.value.origin.appointed.BySlot? ==>
          AppointsText(pkg.slots, out.value.origin.appointed.descriptor))
  }

  predicate OutputResolves(pkg: Package, out: OutputSlot) {
    match out
    case TextOutput(_, c, _) =>
      var collector := Find(pkg.collectors, CollectorName, c);
      collector.Some? && SourceResolves(pkg, collector.value.from, true) && collector.value.to.ToText?
    case FileOutput(_, CollectedOut(c), _) =>
      var collector := Find(pkg.collectors, CollectorName, c);
      collector.Some? && SourceResolves(pkg, collector.value.from, false) && collector.value.to.ToFile?
    case FileOutput(_, UsecaseOut(m, _), _) => Find(pkg.fileOutputs, MaterialName, m).Some?
  }

  /** An output gathered by a collector that reads a file no File output slot names. */
  predicate ReadsUnmatched(pkg: Package, out: OutputSlot) {
    !(out.FileOutput? && out.origin.UsecaseOut?) &&
    var c := if out.TextOutput? then out.collector else out.origin.descriptor;
    var collector := Find(pkg.collectors, CollectorName, c);
    collector.Some? && collector.value.from.FromFile? && FileOutputNamed(pkg.outputs, collector.value.from.slot).None?
  }

  /** Such an output is met before one that is refused. */
  predicate MeetsUnmatched(pkg: Package, outputs: seq<OutputSlot>) {
    exists i :: 0 <= i < |outputs| && MeetsAt(pkg, outputs, i)
  }

  predicate MeetsAt(pkg: Package, outputs: seq<OutputSlot>, i: int) {
    && 0 <= i < |outputs| && ReadsUnmatched(pkg, outputs[i])
    && forall j :: 0 <= j < i ==> OutputResolves(pkg, outputs[j])
  }

  /** The references of a slot, a default input file aside. */
  function RefsOf(slot: InputSlot): seq<Ref> {
    match slot
    case TextInput(_, refs) => refs
    case FileInput(_, refs) => Mounts(refs)
  }

  function Mounts(refs: seq<FileRef>): (r: seq<Ref>)
    ensures forall x :: x in r <==> Mount(x) in refs
  {
    if refs == [] then [] else (if refs[0].Mount? then [refs[0].ref] else []) + Mounts(refs[1..])
  }

  /** The default input files named among some references, in order. */
  function Defaults(refs: seq<FileRef>): seq<string> {
    if refs == [] then []
    else (if refs[0].FileInputRef? then [refs[0].descriptor] else []) + Defaults(refs[1..])
  }

  predicate FillsAmong(refs: seq<Ref>, t: string) {
    exists r :: r in refs && r.TemplateRef? && r.descriptor == t && r.keys != []
  }

  predicate FillsTemplate(slot: InputSlot, t: string) {
    FillsAmong(RefsOf(slot), t)
  }

  /** A template that some slot fills, at some key. */
  predicate Used(pkg: Package, t: string) {
    exists s :: s in pkg.slots && FillsTemplate(s, t)
  }

  /** An order in which the table of used templates may be iterated. */
  ghost predicate Enumerates(pkg: Package, order: seq<string>) {
    forall t :: t in order <==> Used(pkg, t)
  }

  /** Everything a package must get right but for the numbering of its arguments. */
  ghost predicate WellFormed(pkg: Package) {
    && (forall s :: s in pkg.slots ==> SlotResolves(pkg, s))
    && (forall t :: t in pkg.templates ==> NamesResolve(pkg, t.asFileName))
    && (forall t :: Used(pkg, t) ==> TemplateResolves(pkg, t))
    && forall o :: o in pkg.outputs ==> OutputResolves(pkg, o)
  }

  // ---------------------------------------------------------------- what is written where

  function ArgumentFormat(pkg: Package, d: string): string {
    var a := Find(pkg.arguments, ArgumentName, d);
    if a.Some? then a.value.valueFormat else ""
  }

  function EnvironmentOf(pkg: Package, d: string): Environment {
    var e := Find(pkg.environments, EnvironmentName, d);
    if e.Some? then e.value else Environment(d, "", "")
  }

  /** The references to arguments among some references, in order. */
  function ArgWrites(pkg: Package, refs: seq<Ref>, source: Source): seq<Write<nat>> {
    if refs == [] then []
    else
      var r := refs[0];
      (if r.ArgRef? then [Write(r.sort, ArgumentFormat(pkg, r.descriptor), r.nth, source)] else [])
        + ArgWrites(pkg, refs[1..], source)
  }

  function EnvWrites(pkg: Package, refs: seq<Ref>, source: Source): seq<Write<string>> {
    if refs == [] then []
    else
      var r := refs[0];
      var e := if r.EnvRef? then EnvironmentOf(pkg, r.descriptor) else Environment("", "", "");
      (if r.EnvRef? then [Write(e.key, e.valueFormat, r.nth, source)] else []) + EnvWrites(pkg, refs[1..], source)
  }

  /** The references to standard input, each a write to one and the same place. */
  function StdMounts(refs: seq<Ref>, source: Source): seq<Write<nat>> {
    if refs == [] then []
    else (if refs[0].StdInRef? then [Write(0, "", 0, source)] else []) + StdMounts(refs[1..], source)
  }

  lemma MountedOnce<V>(before: V, ref: Ref, source: Source, value: Source -> V)
    ensures LastMounted(before, StdMounts([ref], source), value) == if ref.StdInRef? then value(source) else before
  {
    assert [ref][1..] == [] && StdMounts([], source) == [];
    var mounts := StdMounts([ref], source);
    if ref.StdInRef? {
      assert mounts == [Write(0, "", 0, source)];
      assert mounts[1..] == [] && mounts[0].key == 0 && mounts[0].nth == 0;
      assert LastSource(mounts[1..], 0, 0) == None;
      assert LastSource(mounts, 0, 0) == Some(source);
    } else {
      assert mounts == [];
    }
  }

  function SlotStd(slots: seq<InputSlot>): seq<Write<nat>> {
    if slots == [] then [] else StdMounts(RefsOf(slots[0]), Slot(slots[0].descriptor)) + SlotStd(slots[1..])
  }

  function TemplateStd(pkg: Package, t: string): seq<Write<nat>> {
    var file := Find(pkg.templates, TemplateName, t);
    if file.None? then []
    else StdMounts(file.value.asContent, Content(t)) + StdMounts(Mounts(file.value.asFileName), Name(t))
  }

  function StdBlock(pkg: Package): string -> seq<Write<nat>> { t => TemplateStd(pkg, t) }

  function AllStd(pkg: Package, order: seq<string>): seq<Write<nat>> {
    SlotStd(pkg.slots) + Blocks(order, StdBlock(pkg))
  }

  function SlotArgs(pkg: Package, slots: seq<InputSlot>): seq<Write<nat>> {
    if slots == [] then [] else ArgWrites(pkg, RefsOf(slots[0]), Slot(slots[0].descriptor)) + SlotArgs(pkg, slots[1..])
  }

  function SlotEnvs(pkg: Package, slots: seq<InputSlot>): seq<Write<string>> {
    if slots == [] then [] else EnvWrites(pkg, RefsOf(slots[0]), Slot(slots[0].descriptor)) + SlotEnvs(pkg, slots[1..])
  }

  function TemplateArgs(pkg: Package, t: string): seq<Write<nat>> {
    var file := Find(pkg.templates, TemplateName, t);
    if file.None? then []
    else ArgWrites(pkg, file.value.asContent, Content(t)) + ArgWrites(pkg, Mounts(file.value.asFileName), Name(t))
  }

  function TemplateEnvs(pkg: Package, t: string): seq<Write<string>> {
    var file := Find(pkg.templates, TemplateName, t);
    if file.None? then []
    else EnvWrites(pkg, file.value.asContent, Content(t)) + EnvWrites(pkg, Mounts(file.value.asFileName), Name(t))
  }

  function ArgBlock(pkg: Package): string -> seq<Write<nat>> { t => TemplateArgs(pkg, t) }
  function EnvBlock(pkg: Package): string -> seq<Write<string>> { t => TemplateEnvs(pkg, t) }

  /** Every reference to an argument, the templates in the order given. */
  function AllArgs(pkg: Package, order: seq<string>): seq<Write<nat>> {
    SlotArgs(pkg, pkg.slots) + Blocks(order, ArgBlock(pkg))
  }

  function AllEnvs(pkg: Package, order: seq<string>): seq<Write<string>> {
    SlotEnvs(pkg, pkg.slots) + Blocks(order, EnvBlock(pkg))
  }

  /** The keys of templates that some references fill with a value. */
  function KeyRefs<V>(table: map<string, map<string, V>>, refs: seq<Ref>, v: V): map<string, map<string, V>>
    decreases |refs|
  {
    if refs == [] then table
    else
      var r := refs[0];
      KeyRefs(if r.TemplateRef? then PutKeys(table, r.descriptor, r.keys, v) else table, refs[1..], v)
  }

  function KeySlots<V>(table: map<string, map<string, V>>, slots: seq<InputSlot>,
                       value: Source -> V): map<string, map<string, V>>
    decreases |slots|
  {
    if slots == [] then table
    else KeySlots(KeyRefs(table, RefsOf(slots[0]), value(Slot(slots[0].descriptor))), slots[1..], value)
  }

  lemma {:induction false} KeyRefsConcat<V>(table: map<string, map<string, V>>, a: seq<Ref>, b: seq<Ref>, v: V)
    ensures KeyRefs(table, a + b, v) == KeyRefs(KeyRefs(table, a, v), b, v)
    decreases |a|
  {
    if a == [] {
      assert a + b == b;
    } else {
      assert (a + b)[0] == a[0] && (a + b)[1..] == a[1..] + b;
      KeyRefsConcat(if a[0].TemplateRef? then PutKeys(table, a[0].descriptor, a[0].keys, v) else table, a[1..], b, v);
    }
  }

  lemma {:induction false} KeyRefsNone<V>(table: map<string, map<string, V>>, refs: seq<Ref>, v: V)
    requires forall r :: r in refs ==> !r.TemplateRef?
    ensures KeyRefs(table, refs, v) == table
  {
    if refs != [] { KeyRefsNone(table, refs[1..], v); }
  }

  /** The sorts referred to are 0 to n-1. */
  ghost predicate SortsUpTo(writes: seq<Write<nat>>, n: nat) {
    forall k: nat :: FirstFormat(writes, k).Some? <==> k < n
  }

  ghost predicate Numbered(pkg: Package, order: seq<string>) {
    exists n: nat :: SortsUpTo(AllArgs(pkg, order), n)
  }
}
