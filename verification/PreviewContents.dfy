/** What a preview lists, read off the package alone: the default input files, the files of the templates,
    the output files and the collections. */
module PreviewContents {
  import opened Basics
  import opened FormatTables
  import opened PackageModel
  import opened PackageValidate
  import opened TaskContents

  function MaterialPath(materials: seq<FileMaterial>, d: string): string {
    var m := Find(materials, MaterialName, d);
    if m.Some? then m.value.kind.path else ""
  }

  /** The default input files named among some references, at the paths of their materials. */
  function DefaultPreviews(pkg: Package, refs: seq<FileRef>, from: InDescriptor): seq<FilePreview> {
    var ds := Defaults(refs);
    seq(|ds|, k requires 0 <= k < |ds| => ConstInput(from, ds[k], MaterialPath(pkg.fileInputs, ds[k])))
  }

  function SlotPreviews(pkg: Package): InputSlot -> seq<FilePreview> {
    (s: InputSlot) => if s.FileInput? then DefaultPreviews(pkg, s.fileRefs, FromSlot(s.descriptor)) else []
  }

  /** A template is listed as a file of its own under the same condition as in the task. */
  function TemplatePreviews(pkg: Package): string -> seq<FilePreview> {
    (t: string) =>
      var file := Find(pkg.templates, TemplateName, t);
      if file.None? then []
      else
        var names := file.value.asFileName;
        (if |names| > 1 || (|names| == 1 && names[0].Mount?) then [DynamicInput(FromTemplate(t))] else [])
          + DefaultPreviews(pkg, names, FromTemplate(t))
  }

  function OutputPreviews(pkg: Package): OutputSlot -> seq<FilePreview> {
    (out: OutputSlot) =>
      if !out.FileOutput? || !out.origin.UsecaseOut? then []
      else
        match out.origin.appointed
        case BySlot(d) => [DynamicOutput(FromSlot(d), out.origin.material)]
        case ByMaterial => [ConstOutput(out.origin.material, MaterialPath(pkg.fileOutputs, out.origin.material))]
  }

  /** The material a collector reads, named by the first File output slot of the name it gives. */
  function ReadMaterial(pkg: Package, from: CollectFrom): PreviewFrom {
    match from
    case FromFile(d) =>
      var out := FileOutputNamed(pkg.outputs, d);
      PreviewFile(if out.Some? && out.value.origin.UsecaseOut? then out.value.origin.material else "")
    case FromStdout => PreviewStdout
    case FromStderr => PreviewStderr
  }

  function CollectPreviews(pkg: Package): OutputSlot -> seq<CollectPreview> {
    (out: OutputSlot) =>
      var c := CollectorOf(pkg, out);
      if c.None? then []
      else
        var to := if c.value.to.ToFile? then PreviewToFile(c.value.to.file.path) else PreviewToText;
        [CollectPreview(ReadMaterial(pkg, c.value.from), c.value.rule, to, out.optional)]
  }

  // ---------------------------------------------------------------- what each part lists

  ghost predicate Lists(p: Preview, q: Preview, files: seq<FilePreview>, collects: seq<CollectPreview>) {
    q.files == p.files + files && q.collects == p.collects + collects
  }

  lemma ListsTwice(p: Preview, q: Preview, r: Preview, a: seq<FilePreview>, b: seq<FilePreview>,
                   c: seq<CollectPreview>, d: seq<CollectPreview>)
    requires Lists(p, q, a, c) && Lists(q, r, b, d)
    ensures Lists(p, r, a + b, c + d)
  {
  }

  lemma RefLists(pkg: Package, p: Preview, ref: Ref, from: InDescriptor)
    requires PreviewRef(pkg, p, ref, from).Done?
    ensures Lists(p, PreviewRef(pkg, p, ref, from).value, [], [])
  {
  }

  lemma {:induction false} RefsList(pkg: Package, p: Preview, refs: seq<Ref>, from: InDescriptor)
    requires PreviewRefs(pkg, p, refs, from).Done?
    ensures Lists(p, PreviewRefs(pkg, p, refs, from).value, [], [])
    decreases |refs|
  {
    if refs != [] {
      RefLists(pkg, p, refs[0], from);
      RefsList(pkg, PreviewRef(pkg, p, refs[0], from).value, refs[1..], from);
    }
  }

  lemma DefaultPreviewsCons(pkg: Package, refs: seq<FileRef>, from: InDescriptor)
    requires refs != []
    ensures DefaultPreviews(pkg, refs, from) ==
            DefaultPreview(pkg, refs[0], from) + DefaultPreviews(pkg, refs[1..], from)
  {
  }

  function DefaultPreview(pkg: Package, ref: FileRef, from: InDescriptor): seq<FilePreview> {
    if ref.FileInputRef? then [ConstInput(from, ref.descriptor, MaterialPath(pkg.fileInputs, ref.descriptor))] else []
  }

  lemma FileRefLists(pkg: Package, p: Preview, ref: FileRef, from: InDescriptor)
    requires PreviewFileRef(pkg, p, ref, from).Done?
    ensures Lists(p, PreviewFileRef(pkg, p, ref, from).value, DefaultPreview(pkg, ref, from), [])
  {
    if ref.Mount? { RefLists(pkg, p, ref.ref, from); }
  }

  lemma {:induction false} FileRefsList(pkg: Package, p: Preview, refs: seq<FileRef>, from: InDescriptor)
    requires PreviewFileRefs(pkg, p, refs, from).Done?
    ensures Lists(p, PreviewFileRefs(pkg, p, refs, from).value, DefaultPreviews(pkg, refs, from), [])
    decreases |refs|
  {
    if refs != [] {
      FileRefLists(pkg, p, refs[0], from);
      var q := PreviewFileRef(pkg, p, refs[0], from).value;
      FileRefsList(pkg, q, refs[1..], from);
      ListsTwice(p, q, PreviewFileRefs(pkg, q, refs[1..], from).value, DefaultPreview(pkg, refs[0], from),
                 DefaultPreviews(pkg, refs[1..], from), [], []);
      DefaultPreviewsCons(pkg, refs, from);
    }
  }

  lemma {:induction false} SlotsList(pkg: Package, p: Preview, slots: seq<InputSlot>)
    requires PreviewSlots(pkg, p, slots).Done?
    ensures Lists(p, PreviewSlots(pkg, p, slots).value, FlatMap(slots, SlotPreviews(pkg)), [])
    decreases |slots|
  {
    if slots != [] {
      SlotLists(pkg, p, slots[0]);
      var q := PreviewSlot(pkg, p, slots[0]).value;
      SlotsList(pkg, q, slots[1..]);
      ListsTwice(p, q, PreviewSlots(pkg, q, slots[1..]).value, SlotPreviews(pkg)(slots[0]),
                 FlatMap(slots[1..], SlotPreviews(pkg)), [], []);
    }
  }

  lemma SlotLists(pkg: Package, p: Preview, slot: InputSlot)
    requires PreviewSlot(pkg, p, slot).Done?
    ensures Lists(p, PreviewSlot(pkg, p, slot).value, SlotPreviews(pkg)(slot), [])
  {
    match slot
    case TextInput(d, refs) => RefsList(pkg, p, refs, FromSlot(d));
    case FileInput(d, refs) => FileRefsList(pkg, p, refs, FromSlot(d));
  }

  lemma {:induction false} ContentsList(pkg: Package, p: Preview, refs: seq<Ref>, from: InDescriptor)
    requires PreviewContents(pkg, p, refs, from).Done?
    ensures Lists(p, PreviewContents(pkg, p, refs, from).value, [], [])
    decreases |refs|
  {
    if refs != [] {
      RefLists(pkg, p, refs[0], from);
      ContentsList(pkg, PreviewRef(pkg, p, refs[0], from).value, refs[1..], from);
    }
  }

  lemma {:induction false} NamesList(pkg: Package, p: Preview, names: seq<FileRef>, from: InDescriptor)
    requires PreviewNames(pkg, p, names, from).Done?
    ensures Lists(p, PreviewNames(pkg, p, names, from).value, DefaultPreviews(pkg, names, from), [])
    decreases |names|
  {
    if names != [] {
      FileRefLists(pkg, p, names[0], from);
      var q := PreviewFileRef(pkg, p, names[0], from).value;
      NamesList(pkg, q, names[1..], from);
      ListsTwice(p, q, PreviewNames(pkg, q, names[1..], from).value, DefaultPreview(pkg, names[0], from),
                 DefaultPreviews(pkg, names[1..], from), [], []);
      DefaultPreviewsCons(pkg, names, from);
    }
  }

  lemma TemplateLists(pkg: Package, p: Preview, t: string)
    requires PreviewTemplate(pkg, p, t).Done?
    ensures Lists(p, PreviewTemplate(pkg, p, t).value, TemplatePreviews(pkg)(t), [])
  {
    var file := Find(pkg.templates, TemplateName, t).value;
    var own := if NamesAFile(file.asFileName) then [DynamicInput(FromTemplate(t))] else [];
    ContentsList(pkg, p, file.asContent, FromTemplate(t));
    var q := PreviewContents(pkg, p, file.asContent, FromTemplate(t)).value;
    var r := if NamesAFile(file.asFileName) then q.(files := q.files + [DynamicInput(FromTemplate(t))]) else q;
    NamesList(pkg, r, file.asFileName, FromTemplate(t));
    ListsTwice(p, r, PreviewTemplate(pkg, p, t).value, own,
               DefaultPreviews(pkg, file.asFileName, FromTemplate(t)), [], []);
  }

  lemma {:induction false} TemplatesList(pkg: Package, p: Preview, order: seq<string>)
    requires PreviewTemplates(pkg, p, order).Done?
    ensures Lists(p, PreviewTemplates(pkg, p, order).value, FlatMap(order, TemplatePreviews(pkg)), [])
    decreases |order|
  {
    if order != [] {
      TemplateLists(pkg, p, order[0]);
      var q := PreviewTemplate(pkg, p, order[0]).value;
      TemplatesList(pkg, q, order[1..]);
      ListsTwice(p, q, PreviewTemplates(pkg, q, order[1..]).value, TemplatePreviews(pkg)(order[0]),
                 FlatMap(order[1..], TemplatePreviews(pkg)), [], []);
    }
  }

  lemma ReadIs(pkg: Package, from: CollectFrom, isText: bool)
    requires PreviewSource(pkg, from, isText).Done?
    ensures PreviewSource(pkg, from, isText).value == ReadMaterial(pkg, from)
  {
    if from.FromFile? { CollectedIs(pkg, pkg.outputs, from.slot, isText); }
  }

  lemma OutputLists(pkg: Package, p: Preview, out: OutputSlot)
    requires PreviewOutput(pkg, p, out).Done?
    ensures Lists(p, PreviewOutput(pkg, p, out).value, OutputPreviews(pkg)(out), CollectPreviews(pkg)(out))
  {
    var c := CollectorOf(pkg, out);
    if c.Some? { ReadIs(pkg, c.value.from, out.TextOutput?); }
  }

  lemma {:induction false} OutputsList(pkg: Package, p: Preview, outputs: seq<OutputSlot>)
    requires PreviewOutputs(pkg, p, outputs).Done?
    ensures Lists(p, PreviewOutputs(pkg, p, outputs).value, FlatMap(outputs, OutputPreviews(pkg)),
                  FlatMap(outputs, CollectPreviews(pkg)))
    decreases |outputs|
  {
    if outputs != [] {
      OutputLists(pkg, p, outputs[0]);
      var q := PreviewOutput(pkg, p, outputs[0]).value;
      OutputsList(pkg, q, outputs[1..]);
      ListsTwice(p, q, PreviewOutputs(pkg, q, outputs[1..]).value, OutputPreviews(pkg)(outputs[0]),
                 FlatMap(outputs[1..], OutputPreviews(pkg)), CollectPreviews(pkg)(outputs[0]),
                 FlatMap(outputs[1..], CollectPreviews(pkg)));
    }
  }

  // ---------------------------------------------------------------- the preview

  /** An accepted preview lists, in order, the default input files of the slots, the files of the used
      templates and the output files, and one collection for every output that is collected. */
  lemma PreviewHolds(pkg: Package, order: seq<string>)
    requires Validate(pkg, order).Done?
    ensures var p := Validate(pkg, order).value;
            && p.files == FlatMap(pkg.slots, SlotPreviews(pkg)) + FlatMap(order, TemplatePreviews(pkg))
                          + FlatMap(pkg.outputs, OutputPreviews(pkg))
            && p.collects == FlatMap(pkg.outputs, CollectPreviews(pkg))
  {
    SlotsList(pkg, EMPTY, pkg.slots);
    var p := PreviewSlots(pkg, EMPTY, pkg.slots).value;
    TemplatesList(pkg, p, order);
    var q := PreviewTemplates(pkg, p, order).value;
    OutputsList(pkg, q, pkg.outputs);
    ListsTwice(EMPTY, p, q, FlatMap(pkg.slots, SlotPreviews(pkg)), FlatMap(order, TemplatePreviews(pkg)), [], []);
    ListedFromNothing(q, Validate(pkg, order).value,
                      FlatMap(pkg.slots, SlotPreviews(pkg)) + FlatMap(order, TemplatePreviews(pkg)),
                      FlatMap(pkg.outputs, OutputPreviews(pkg)), FlatMap(pkg.outputs, CollectPreviews(pkg)));
  }

  lemma ListedFromNothing(p: Preview, q: Preview, a: seq<FilePreview>, b: seq<FilePreview>, c: seq<CollectPreview>)
    requires Lists(EMPTY, p, a, []) && Lists(p, q, b, c)
    ensures q.files == a + b && q.collects == c
  {
  }
}
