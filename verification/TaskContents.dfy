/** What a task is to hold, read off the package and the node alone: the literal and the files of each
    input slot, the files of each template, and what each output becomes. */
module TaskContents {
  import opened Basics
  import opened FormatTables
  import opened PackageModel
  import opened SoftwareComputing
  import Text
  import W = WorkflowModel

  // ---------------------------------------------------------------- input slots

  function NodeSlot(rt: Runtime, d: string): Option<W.InputSlot> {
    Find(rt.node.inputs, W.InputName, d)
  }

  /** One file for every file put in the slot, by its id: under the name the slot expects or else its own,
      a package when the slot is batched. */
  function SlotFiles(rt: Runtime, d: string): (files: seq<FileInfo>)
    ensures forall f :: f in files ==> f.InputFile?
  {
    var s := NodeSlot(rt, d);
    if s.Some? && s.value.kind.FileSlot? && s.value.kind.fileInputs.Some? then
      var kind := s.value.kind;
      var inputs := kind.fileInputs.value;
      seq(|inputs|, k requires 0 <= k < |inputs| =>
        InputFile(if kind.expectedName.Some? then kind.expectedName.value else inputs[k].name, kind.isBatch,
                  ById(inputs[k].fileId)))
    else []
  }

  function StoredText(rt: Runtime, id: Uuid): string {
    if id in rt.texts then rt.texts[id] else ""
  }

  /** The stored texts of a slot, or the paths of its files, with one space between any two. */
  function SlotLiteral(rt: Runtime, d: string): Option<string> {
    var s := NodeSlot(rt, d);
    if s.None? then None
    else
      match s.value.kind
      case TextSlot(texts) =>
        if texts.None? then None
        else
          var ids := texts.value;
          Some(Text.Join(seq(|ids|, k requires 0 <= k < |ids| => StoredText(rt, ids[k])), " "))
      case FileSlot(inputs, _, _) =>
        if inputs.None? then None
        else
          var files := SlotFiles(rt, d);
          Some(Text.Join(seq(|files|, k requires 0 <= k < |files| => files[k].path), " "))
      case UnknownSlot => None
  }

  /** Every text put in the slot is stored. */
  predicate TextsStored(rt: Runtime, d: string) {
    var s := NodeSlot(rt, d);
    s.Some? && s.value.kind.TextSlot? && s.value.kind.texts.Some? ==>
      forall x :: x in s.value.kind.texts.value ==> x in rt.texts
  }

  lemma {:induction false} TextsAre(rt: Runtime, ids: seq<Uuid>)
    ensures Texts(rt, ids).Done? <==> forall x :: x in ids ==> x in rt.texts
    ensures !Texts(rt, ids).Panicked?
    ensures Texts(rt, ids).Done? ==>
              Texts(rt, ids).value == seq(|ids|, k requires 0 <= k < |ids| => StoredText(rt, ids[k]))
  {
    if ids != [] {
      TextsAre(rt, ids[1..]);
      assert ids == [ids[0]] + ids[1..];
    }
  }

  lemma {:induction false} InFilesAre(inputs: seq<W.FileInput>, expected: Option<string>, isBatch: bool)
    ensures |InFiles(inputs, expected, isBatch)| == |InFileNames(inputs, expected)| == |inputs|
    ensures forall k :: 0 <= k < |inputs| ==>
              var path := if expected.Some? then expected.value else inputs[k].name;
              && InFileNames(inputs, expected)[k] == path
              && InFiles(inputs, expected, isBatch)[k] == InputFile(path, isBatch, ById(inputs[k].fileId))
  {
    if inputs != [] { InFilesAre(inputs[1..], expected, isBatch); }
  }

  /** The literal and the files fetched for a slot are those. */
  lemma ContentIs(rt: Runtime, d: string)
    requires GetContent(rt, d).Done?
    ensures var content := GetContent(rt, d).value;
            && Literal(content) == SlotLiteral(rt, d)
            && SlotFiles(rt, d) == if content.Some? then content.value.infiles else []
  {
    var kind := NodeSlot(rt, d).value.kind;
    if kind.TextSlot? && kind.texts.Some? {
      TextsAre(rt, kind.texts.value);
    } else if kind.FileSlot? && kind.fileInputs.Some? {
      FileContentIs(rt, d, kind.fileInputs.value, kind.expectedName, kind.isBatch);
    }
  }

  lemma FileContentIs(rt: Runtime, d: string, inputs: seq<W.FileInput>, expected: Option<string>, isBatch: bool)
    requires NodeSlot(rt, d).Some? && NodeSlot(rt, d).value.kind == W.FileSlot(Some(inputs), expected, isBatch)
    ensures SlotFiles(rt, d) == InFiles(inputs, expected, isBatch)
    ensures SlotLiteral(rt, d) == Some(Text.Join(InFileNames(inputs, expected), " "))
  {
    InFilesAre(inputs, expected, isBatch);
    var files := SlotFiles(rt, d);
    assert seq(|files|, k requires 0 <= k < |files| => files[k].path) == InFileNames(inputs, expected);
  }

  /** What a slot mounts to standard input. */
  function SlotStdIn(rt: Runtime, slot: InputSlot): seq<StdIn> {
    var literal := SlotLiteral(rt, slot.descriptor);
    if StdInRef !in RefsOf(slot) then []
    else if literal.None? then [StdNone]
    else [if slot.TextInput? then StdText(literal.value) else StdFile(literal.value)]
  }

  // ---------------------------------------------------------------- templates

  function LiteralOf(rt: Runtime): Source -> Option<string> {
    (s: Source) => if s.Slot? then SlotLiteral(rt, s.descriptor) else None
  }

  /** The keys of the templates, filled with the literals of the slots. */
  function SlotKeys(pkg: Package, rt: Runtime): map<string, map<string, Option<string>>> {
    KeySlots<Option<string>>(map[], pkg.slots, LiteralOf(rt))
  }

  type Table = map<string, map<string, Option<string>>>

  /** The text of a template, filled. */
  function Rendered(pkg: Package, rt: Runtime, keys: Table, t: string): Option<string> {
    var info := Find(pkg.infos, InfoName, t);
    if info.None? then None else rt.render(info.value.content, if t in keys then keys[t] else map[])
  }

  /** A default input file that holds a text. */
  function DefaultFile(pkg: Package, d: string, text: string): FileInfo {
    var m := Find(pkg.fileInputs, MaterialName, d);
    if m.None? then InputFile("", false, ByContent(text))
    else InputFile(m.value.kind.path, m.value.kind.Batched?, ByContent(text))
  }

  function DefaultFiles(pkg: Package, names: seq<FileRef>, text: string): seq<FileInfo> {
    var ds := Defaults(names);
    seq(|ds|, k requires 0 <= k < |ds| => DefaultFile(pkg, ds[k], text))
  }

  /** A filled template becomes a file of its own name, unless it is named nowhere or only as one default
      input file, and every default input file it is named as. */
  function TemplateFiles(pkg: Package, rt: Runtime, keys: Table, t: string): seq<FileInfo> {
    var file, info := Find(pkg.templates, TemplateName, t), Find(pkg.infos, InfoName, t);
    var text := Rendered(pkg, rt, keys, t);
    if file.None? || text.None? then []
    else
      var names := file.value.asFileName;
      (if |names| > 1 || (|names| == 1 && names[0].Mount?)
       then [InputFile(info.value.fileName, false, ByContent(text.value))] else [])
        + DefaultFiles(pkg, names, text.value)
  }

  /** What a template mounts to standard input: its text, then its file name. */
  function TemplateStdIn(pkg: Package, rt: Runtime, keys: Table, t: string): seq<StdIn> {
    var file, info := Find(pkg.templates, TemplateName, t), Find(pkg.infos, InfoName, t);
    var text := Rendered(pkg, rt, keys, t);
    if file.None? || text.None? then []
    else
      (if StdInRef in file.value.asContent then [StdText(text.value)] else [])
        + (if Mount(StdInRef) in file.value.asFileName then [StdFile(info.value.fileName)] else [])
  }

  // ---------------------------------------------------------------- outputs

  /** The id prepared for an output slot of the node. */
  function OutputId(rt: Runtime, d: string): Uuid {
    var s := Find(rt.node.outputs, W.SpecOutName, d);
    if s.Some? && s.value.prepared != [] then s.value.prepared[0] else 0
  }

  /** The first text of the slot that appoints a path. */
  function AppointedText(rt: Runtime, d: string): string {
    var s := NodeSlot(rt, d);
    if s.Some? && s.value.kind.TextSlot? && s.value.kind.texts.Some? && s.value.kind.texts.value != [] then
      StoredText(rt, s.value.kind.texts.value[0])
    else ""
  }

  /** The path of an output file: the text its slot appoints, or else the path of its material. */
  function OutputPath(pkg: Package, rt: Runtime, material: string, appointed: AppointedBy): string {
    if appointed.BySlot? then AppointedText(rt, appointed.descriptor)
    else
      var m := Find(pkg.fileOutputs, MaterialName, material);
      if m.Some? then m.value.kind.path else ""
  }

  /** A collector reads the file of the first File output slot of the name it gives. */
  function ReadPath(pkg: Package, rt: Runtime, d: string): string {
    var out := FileOutputNamed(pkg.outputs, d);
    if out.Some? && out.value.origin.UsecaseOut? then
      OutputPath(pkg, rt, out.value.origin.material, out.value.origin.appointed)
    else ""
  }

  function ReadFrom(pkg: Package, rt: Runtime, from: CollectFrom): TaskFrom {
    match from
    case FromFile(d) => TaskFile(ReadPath(pkg, rt, d))
    case FromStdout => TaskStdout
    case FromStderr => TaskStderr
  }

  /** The collector of an output that is collected. */
  function CollectorOf(pkg: Package, out: OutputSlot): Option<Collector> {
    match out
    case TextOutput(_, c, _) => Find(pkg.collectors, CollectorName, c)
    case FileOutput(_, CollectedOut(c), _) => Find(pkg.collectors, CollectorName, c)
    case FileOutput(_, UsecaseOut(_, _), _) => None
  }

  /** An output that is collected: from where, by which rule and to which id. */
  function OutCollects(pkg: Package, rt: Runtime, out: OutputSlot): seq<Collect> {
    var c := CollectorOf(pkg, out);
    if c.None? then []
    else
      var id := OutputId(rt, out.descriptor);
      var to := if c.value.to.ToFile? then TaskToFile(c.value.to.file.path, id) else TaskToText(id);
      [Collect(ReadFrom(pkg, rt, c.value.from), c.value.rule, to, out.optional)]
  }

  /** An output file the use case writes itself. */
  function OutFiles(pkg: Package, rt: Runtime, out: OutputSlot): seq<FileInfo> {
    if !out.FileOutput? || !out.origin.UsecaseOut? then []
    else
      var m := Find(pkg.fileOutputs, MaterialName, out.origin.material);
      [OutputFile(OutputId(rt, out.descriptor), OutputPath(pkg, rt, out.origin.material, out.origin.appointed),
                  m.Some? && m.value.kind.Batched?, out.optional)]
  }

  /** The text an appointment reads is stored. */
  predicate AppointedStored(rt: Runtime, appointed: AppointedBy) {
    appointed.BySlot? ==>
      var s := NodeSlot(rt, appointed.descriptor);
      s.Some? && s.value.kind.TextSlot? && s.value.kind.texts.Some? && s.value.kind.texts.value != [] ==>
        s.value.kind.texts.value[0] in rt.texts
  }

  /** The node's output slot is of the kind of the output, and the texts that appoint paths are stored. */
  predicate OutputReady(pkg: Package, rt: Runtime, out: OutputSlot) {
    var s := Find(rt.node.outputs, W.SpecOutName, out.descriptor);
    var c := CollectorOf(pkg, out);
    && (s.Some? ==> s.value.kind == if out.TextOutput? then W.TextOut else W.FileOut)
    && (out.FileOutput? && out.origin.UsecaseOut? ==> AppointedStored(rt, out.origin.appointed))
    && (c.Some? && c.value.from.FromFile? ==>
          var read := FileOutputNamed(pkg.outputs, c.value.from.slot);
          read.Some? && read.value.origin.UsecaseOut? ==> AppointedStored(rt, read.value.origin.appointed))
  }
}
