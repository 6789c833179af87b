/** What `parse_task` returns: when it succeeds, and what the task then holds besides its arguments. */
module TaskResult {
  import opened Basics
  import opened FormatTables
  import opened PackageModel
  import opened PackageValidate
  import opened SoftwareComputing
  import opened TaskContents
  import opened PackageSafety
  import opened PackageAgreement
  import W = WorkflowModel

  // ---------------------------------------------------------------- what each part adds

  /** Standard input after some mounts: the last one counts. */
  function LastOf(before: StdIn, mounts: seq<StdIn>): StdIn {
    if mounts == [] then before else mounts[|mounts| - 1]
  }

  /** What a part of the package adds: files, mounts to standard input and collections. */
  datatype Added = Added(files: seq<FileInfo>, mounts: seq<StdIn>, collects: seq<Collect>)

  ghost predicate Gained(b: Build, c: Build, more: Added) {
    && c.files == b.files + more.files
    && c.stdin == LastOf(b.stdin, more.mounts)
    && c.collects == b.collects + more.collects
  }

  function Both(x: Added, y: Added): Added {
    Added(x.files + y.files, x.mounts + y.mounts, x.collects + y.collects)
  }

  lemma GainedTwice(b: Build, c: Build, d: Build, x: Added, y: Added)
    requires Gained(b, c, x) && Gained(c, d, y)
    ensures Gained(b, d, Both(x, y))
  {
  }

  lemma GainedOn(b: Build, c: Build, d: Build, x: Added, y: Added, all: Added)
    requires Gained(b, c, x) && Gained(c, d, y)
    requires all.files == x.files + y.files && all.collects == x.collects + y.collects
    requires LastOf(b.stdin, all.mounts) == LastOf(LastOf(b.stdin, x.mounts), y.mounts)
    ensures Gained(b, d, all)
  {
    assert b.files + x.files + y.files == b.files + (x.files + y.files);
    assert b.collects + x.collects + y.collects == b.collects + (x.collects + y.collects);
  }

  /** A mount to standard input, if there is one. */
  function MountAdds(mounted: bool, stdin: Outcome<StdIn, Refusal>): Added {
    Added([], if mounted && stdin.Done? then [stdin.value] else [], [])
  }

  lemma MountsGain(b: Build, c: Build, d: Build, x: bool, y: bool, stdin: Outcome<StdIn, Refusal>)
    requires Gained(b, c, MountAdds(x, stdin)) && Gained(c, d, MountAdds(y, stdin))
    ensures Gained(b, d, MountAdds(x || y, stdin))
  {
  }

  const NO_MORE := Added([], [], [])

  // ---------------------------------------------------------------- slots

  lemma {:induction false} RefsGain(pkg: Package, b: Build, refs: seq<Ref>, value: Option<string>,
                                    stdin: Outcome<StdIn, Refusal>)
    requires ParseRefs(pkg, b, refs, value, stdin).Done?
    ensures StdInRef in refs ==> stdin.Done?
    ensures Gained(b, ParseRefs(pkg, b, refs, value, stdin).value, MountAdds(StdInRef in refs, stdin))
    decreases |refs|
  {
    if refs != [] {
      assert refs == [refs[0]] + refs[1..];
      var c := ParseRef(pkg, b, refs[0], value, stdin).value;
      RefGains(pkg, b, refs[0], value, stdin);
      RefsGain(pkg, c, refs[1..], value, stdin);
      MountsGain(b, c, ParseRefs(pkg, c, refs[1..], value, stdin).value, refs[0].StdInRef?, StdInRef in refs[1..],
                 stdin);
    }
  }

  lemma {:induction false} FileRefsGain(pkg: Package, b: Build, refs: seq<FileRef>, value: Option<string>,
                                        stdin: Outcome<StdIn, Refusal>)
    requires ParseFileRefs(pkg, b, refs, value, stdin).Done?
    ensures Mount(StdInRef) in refs ==> stdin.Done?
    ensures Gained(b, ParseFileRefs(pkg, b, refs, value, stdin).value, MountAdds(Mount(StdInRef) in refs, stdin))
    decreases |refs|
  {
    if refs != [] {
      assert refs == [refs[0]] + refs[1..];
      match refs[0]
      case FileInputRef(_) => FileRefsGain(pkg, b, refs[1..], value, stdin);
      case Mount(r) =>
        var c := ParseRef(pkg, b, r, value, stdin).value;
        RefGains(pkg, b, r, value, stdin);
        FileRefsGain(pkg, c, refs[1..], value, stdin);
        MountsGain(b, c, ParseFileRefs(pkg, c, refs[1..], value, stdin).value, r.StdInRef?,
                   Mount(StdInRef) in refs[1..], stdin);
    }
  }

  lemma RefGains(pkg: Package, b: Build, ref: Ref, value: Option<string>, stdin: Outcome<StdIn, Refusal>)
    requires ParseRef(pkg, b, ref, value, stdin).Done?
    ensures ref.StdInRef? ==> stdin.Done?
    ensures Gained(b, ParseRef(pkg, b, ref, value, stdin).value, MountAdds(ref.StdInRef?, stdin))
  {
  }

  function SlotAdds(rt: Runtime, slot: InputSlot): Added {
    Added(SlotFiles(rt, slot.descriptor), SlotStdIn(rt, slot), [])
  }

  lemma SlotGains(pkg: Package, rt: Runtime, b: Build, slot: InputSlot)
    requires ParseSlot(pkg, rt, b, slot).Done?
    ensures Gained(b, ParseSlot(pkg, rt, b, slot).value, SlotAdds(rt, slot))
  {
    ContentIs(rt, slot.descriptor);
    var content := GetContent(rt, slot.descriptor).value;
    var c := if content.Some? then b.(files := b.files + content.value.infiles) else b;
    match slot
    case TextInput(_, refs) => RefsGain(pkg, c, refs, Literal(content), TextStdIn(content));
    case FileInput(_, refs) => FileRefsGain(pkg, c, refs, Literal(content), FileStdIn(content));
  }

  function FilesOfSlot(rt: Runtime): InputSlot -> seq<FileInfo> { (s: InputSlot) => SlotFiles(rt, s.descriptor) }
  function MountsOfSlot(rt: Runtime): InputSlot -> seq<StdIn> { (s: InputSlot) => SlotStdIn(rt, s) }

  function SlotsAdd(rt: Runtime, slots: seq<InputSlot>): Added {
    Added(FlatMap(slots, FilesOfSlot(rt)), FlatMap(slots, MountsOfSlot(rt)), [])
  }

  lemma {:induction false} SlotsGain(pkg: Package, rt: Runtime, b: Build, slots: seq<InputSlot>)
    requires ParseSlots(pkg, rt, b, slots).Done?
    ensures Gained(b, ParseSlots(pkg, rt, b, slots).value, SlotsAdd(rt, slots))
    decreases |slots|
  {
    if slots != [] {
      SlotGains(pkg, rt, b, slots[0]);
      var c := ParseSlot(pkg, rt, b, slots[0]).value;
      SlotsGain(pkg, rt, c, slots[1..]);
      GainedTwice(b, c, ParseSlots(pkg, rt, c, slots[1..]).value, SlotAdds(rt, slots[0]), SlotsAdd(rt, slots[1..]));
      assert SlotsAdd(rt, slots) == Both(SlotAdds(rt, slots[0]), SlotsAdd(rt, slots[1..]));
    }
  }

  // ---------------------------------------------------------------- templates

  lemma {:induction false} ContentsGain(pkg: Package, b: Build, refs: seq<Ref>, text: string)
    requires ParseContents(pkg, b, refs, text).Done?
    ensures var mounts := if StdInRef in refs then [StdText(text)] else [];
            Gained(b, ParseContents(pkg, b, refs, text).value, Added([], mounts, []))
    decreases |refs|
  {
    if refs != [] {
      var c := ParseRef(pkg, b, refs[0], Some(text), Done(StdText(text))).value;
      ContentsGain(pkg, c, refs[1..], text);
      assert refs == [refs[0]] + refs[1..];
    }
  }

  function NamesAdd(pkg: Package, names: seq<FileRef>, fileName: string, text: string): Added {
    Added(DefaultFiles(pkg, names, text), if Mount(StdInRef) in names then [StdFile(fileName)] else [], [])
  }

  lemma DefaultsCons(pkg: Package, names: seq<FileRef>, text: string)
    requires names != []
    ensures DefaultFiles(pkg, names, text) ==
            (if names[0].FileInputRef? then [DefaultFile(pkg, names[0].descriptor, text)] else [])
            + DefaultFiles(pkg, names[1..], text)
  {
  }

  lemma {:induction false} NamesGain(pkg: Package, b: Build, names: seq<FileRef>, fileName: string, text: string)
    requires ParseNames(pkg, b, names, fileName, text).Done?
    ensures Gained(b, ParseNames(pkg, b, names, fileName, text).value, NamesAdd(pkg, names, fileName, text))
    decreases |names|
  {
    if names != [] {
      var c := ParseName(pkg, b, names[0], fileName, text).value;
      NameGains(pkg, b, names[0], fileName, text);
      NamesGain(pkg, c, names[1..], fileName, text);
      NamesAddCons(pkg, names, fileName, text, b.stdin);
      GainedOn(b, c, ParseNames(pkg, c, names[1..], fileName, text).value, NameAdds(pkg, names[0], fileName, text),
               NamesAdd(pkg, names[1..], fileName, text), NamesAdd(pkg, names, fileName, text));
    }
  }

  function NameAdds(pkg: Package, name: FileRef, fileName: string, text: string): Added {
    Added(if name.FileInputRef? then [DefaultFile(pkg, name.descriptor, text)] else [],
          if name == Mount(StdInRef) then [StdFile(fileName)] else [], [])
  }

  lemma NameGains(pkg: Package, b: Build, name: FileRef, fileName: string, text: string)
    requires ParseName(pkg, b, name, fileName, text).Done?
    ensures Gained(b, ParseName(pkg, b, name, fileName, text).value, NameAdds(pkg, name, fileName, text))
  {
  }

  lemma NamesAddCons(pkg: Package, names: seq<FileRef>, fileName: string, text: string, before: StdIn)
    requires names != []
    ensures var one, rest := NameAdds(pkg, names[0], fileName, text), NamesAdd(pkg, names[1..], fileName, text);
            var all := NamesAdd(pkg, names, fileName, text);
            && all.files == one.files + rest.files && all.collects == one.collects + rest.collects
            && LastOf(before, all.mounts) == LastOf(LastOf(before, one.mounts), rest.mounts)
  {
    DefaultsCons(pkg, names, text);
    assert names == [names[0]] + names[1..];
  }

  function TemplateAdds(pkg: Package, rt: Runtime, keys: Table, t: string): Added {
    Added(TemplateFiles(pkg, rt, keys, t), TemplateStdIn(pkg, rt, keys, t), [])
  }

  /** The file a template becomes under its own name. */
  function OwnFile(names: seq<FileRef>, fileName: string, text: string): seq<FileInfo> {
    if |names| > 1 || (|names| == 1 && names[0].Mount?) then [InputFile(fileName, false, ByContent(text))] else []
  }

  lemma TemplateNamed(pkg: Package, rt: Runtime, b: Build, t: string, file: TemplateFile, info: TemplateInfo,
                      text: string)
    requires ParseTemplate(pkg, rt, b, t).Done?
    requires Find(pkg.templates, TemplateName, t) == Some(file) && Find(pkg.infos, InfoName, t) == Some(info)
    requires rt.render(info.content, KeysOf(b, t)) == Some(text)
    ensures var c := ParseContents(pkg, b, file.asContent, text);
            c.Done? && ParseTemplate(pkg, rt, b, t) ==
            ParseNames(pkg, c.value.(files := c.value.files + OwnFile(file.asFileName, info.fileName, text)),
                       file.asFileName, info.fileName, text)
  {
    var c := ParseContents(pkg, b, file.asContent, text).value;
    assert c.(files := c.files + []) == c;
  }

  /** What the mounts of its text add. */
  function ContentAdds(file: TemplateFile, info: TemplateInfo, text: string): Added {
    Added(OwnFile(file.asFileName, info.fileName, text), if StdInRef in file.asContent then [StdText(text)] else [], [])
  }

  lemma FilledGains(pkg: Package, b: Build, file: TemplateFile, info: TemplateInfo, text: string)
    requires ParseContents(pkg, b, file.asContent, text).Done?
    requires var c := ParseContents(pkg, b, file.asContent, text).value;
             var d := c.(files := c.files + OwnFile(file.asFileName, info.fileName, text));
             ParseNames(pkg, d, file.asFileName, info.fileName, text).Done?
    ensures var c := ParseContents(pkg, b, file.asContent, text).value;
            var d := c.(files := c.files + OwnFile(file.asFileName, info.fileName, text));
            Gained(b, ParseNames(pkg, d, file.asFileName, info.fileName, text).value,
                   Both(ContentAdds(file, info, text), NamesAdd(pkg, file.asFileName, info.fileName, text)))
  {
    ContentsGain(pkg, b, file.asContent, text);
    var c := ParseContents(pkg, b, file.asContent, text).value;
    var d := c.(files := c.files + OwnFile(file.asFileName, info.fileName, text));
    NamesGain(pkg, d, file.asFileName, info.fileName, text);
    GainedTwice(b, d, ParseNames(pkg, d, file.asFileName, info.fileName, text).value, ContentAdds(file, info, text),
                NamesAdd(pkg, file.asFileName, info.fileName, text));
  }

  lemma TemplateAddsIs(pkg: Package, rt: Runtime, b: Build, t: string, file: TemplateFile, info: TemplateInfo,
                       text: string)
    requires Find(pkg.templates, TemplateName, t) == Some(file) && Find(pkg.infos, InfoName, t) == Some(info)
    requires rt.render(info.content, KeysOf(b, t)) == Some(text)
    ensures TemplateAdds(pkg, rt, b.templates, t) ==
            Both(ContentAdds(file, info, text), NamesAdd(pkg, file.asFileName, info.fileName, text))
  {
  }

  lemma TemplateGains(pkg: Package, rt: Runtime, b: Build, t: string)
    requires ParseTemplate(pkg, rt, b, t).Done?
    ensures Gained(b, ParseTemplate(pkg, rt, b, t).value, TemplateAdds(pkg, rt, b.templates, t))
  {
    var file, info := Find(pkg.templates, TemplateName, t).value, Find(pkg.infos, InfoName, t).value;
    var text := rt.render(info.content, KeysOf(b, t)).value;
    TemplateNamed(pkg, rt, b, t, file, info, text);
    FilledGains(pkg, b, file, info, text);
    TemplateAddsIs(pkg, rt, b, t, file, info, text);
  }

  function FilesOfTemplate(pkg: Package, rt: Runtime, keys: Table): string -> seq<FileInfo> {
    t => TemplateFiles(pkg, rt, keys, t)
  }

  function MountsOfTemplate(pkg: Package, rt: Runtime, keys: Table): string -> seq<StdIn> {
    t => TemplateStdIn(pkg, rt, keys, t)
  }

  function TemplatesAdd(pkg: Package, rt: Runtime, keys: Table, order: seq<string>): Added {
    Added(FlatMap(order, FilesOfTemplate(pkg, rt, keys)), FlatMap(order, MountsOfTemplate(pkg, rt, keys)), [])
  }

  lemma {:induction false} TemplatesGain(pkg: Package, rt: Runtime, b: Build, order: seq<string>)
    requires ParseTemplates(pkg, rt, b, order).Done?
    ensures Gained(b, ParseTemplates(pkg, rt, b, order).value, TemplatesAdd(pkg, rt, b.templates, order))
    decreases |order|
  {
    if order != [] {
      TemplateGains(pkg, rt, b, order[0]);
      TemplateParsed(pkg, rt, b, order[0]);
      var c := ParseTemplate(pkg, rt, b, order[0]).value;
      TemplatesGain(pkg, rt, c, order[1..]);
      GainedTwice(b, c, ParseTemplates(pkg, rt, c, order[1..]).value, TemplateAdds(pkg, rt, b.templates, order[0]),
                  TemplatesAdd(pkg, rt, b.templates, order[1..]));
      assert TemplatesAdd(pkg, rt, b.templates, order) ==
             Both(TemplateAdds(pkg, rt, b.templates, order[0]), TemplatesAdd(pkg, rt, b.templates, order[1..]));
    }
  }

  // ---------------------------------------------------------------- outputs

  lemma {:induction false} ReadPathIs(pkg: Package, rt: Runtime, outputs: seq<OutputSlot>, d: string)
    ensures var out := FileOutputNamed(outputs, d);
            var path := CollectedPath(pkg, rt, outputs, d);
            path.Done? ==>
              if out.None? then path.value == ""
              else
                && out.value.origin.UsecaseOut?
                && path.value == OutputPath(pkg, rt, out.value.origin.material, out.value.origin.appointed)
  {
    if outputs != [] && !(outputs[0].FileOutput? && outputs[0].descriptor == d) {
      ReadPathIs(pkg, rt, outputs[1..], d);
    }
  }

  lemma ReadFromIs(pkg: Package, rt: Runtime, from: CollectFrom)
    requires ParseSource(pkg, rt, from).Done?
    ensures ParseSource(pkg, rt, from).value == ReadFrom(pkg, rt, from)
  {
    if from.FromFile? { ReadPathIs(pkg, rt, pkg.outputs, from.slot); }
  }

  function OutputAdds(pkg: Package, rt: Runtime, out: OutputSlot): Added {
    Added(OutFiles(pkg, rt, out), [], OutCollects(pkg, rt, out))
  }

  lemma OutputGains(pkg: Package, rt: Runtime, b: Build, out: OutputSlot)
    requires ParseOutput(pkg, rt, b, out).Done?
    ensures Gained(b, ParseOutput(pkg, rt, b, out).value, OutputAdds(pkg, rt, out))
  {
    var c := CollectorOf(pkg, out);
    if c.Some? { ReadFromIs(pkg, rt, c.value.from); }
  }

  function FilesOfOutput(pkg: Package, rt: Runtime): OutputSlot -> seq<FileInfo> { o => OutFiles(pkg, rt, o) }
  function CollectsOfOutput(pkg: Package, rt: Runtime): OutputSlot -> seq<Collect> { o => OutCollects(pkg, rt, o) }

  function OutputsAdd(pkg: Package, rt: Runtime, outputs: seq<OutputSlot>): Added {
    Added(FlatMap(outputs, FilesOfOutput(pkg, rt)), [], FlatMap(outputs, CollectsOfOutput(pkg, rt)))
  }

  lemma {:induction false} OutputsGain(pkg: Package, rt: Runtime, b: Build, outputs: seq<OutputSlot>)
    requires ParseOutputs(pkg, rt, b, outputs).Done?
    ensures Gained(b, ParseOutputs(pkg, rt, b, outputs).value, OutputsAdd(pkg, rt, outputs))
    decreases |outputs|
  {
    if outputs != [] {
      OutputGains(pkg, rt, b, outputs[0]);
      var c := ParseOutput(pkg, rt, b, outputs[0]).value;
      OutputsGain(pkg, rt, c, outputs[1..]);
      GainedTwice(b, c, ParseOutputs(pkg, rt, c, outputs[1..]).value, OutputAdds(pkg, rt, outputs[0]),
                  OutputsAdd(pkg, rt, outputs[1..]));
      assert OutputsAdd(pkg, rt, outputs) == Both(OutputAdds(pkg, rt, outputs[0]), OutputsAdd(pkg, rt, outputs[1..]));
    }
  }

  // ---------------------------------------------------------------- the keys of the templates

  lemma {:induction false} SameLiterals(table: Table, slots: seq<InputSlot>, v: Source -> Option<string>,
                                        w: Source -> Option<string>)
    requires forall d :: v(Slot(d)) == w(Slot(d))
    ensures KeySlots(table, slots, v) == KeySlots(table, slots, w)
    decreases |slots|
  {
    if slots != [] {
      SameLiterals(KeyRefs(table, RefsOf(slots[0]), v(Slot(slots[0].descriptor))), slots[1..], v, w);
    }
  }

  lemma SlotsKeyed(pkg: Package, rt: Runtime, order: seq<string>)
    requires Compile(pkg, rt, order).Done?
    ensures ParseSlots(pkg, rt, EnteredFlags(pkg).value, pkg.slots).value.templates == SlotKeys(pkg, rt)
  {
    FlagsEntered(pkg);
    SlotsParsed(pkg, rt, EnteredFlags(pkg).value, pkg.slots, map[]);
    SameLiterals(map[], pkg.slots, Values(pkg, rt, map[]), LiteralOf(rt));
  }

  // ---------------------------------------------------------------- the task

  function TaskAdds(pkg: Package, rt: Runtime, order: seq<string>): Added {
    Both(SlotsAdd(rt, pkg.slots),
         Both(TemplatesAdd(pkg, rt, SlotKeys(pkg, rt), order), OutputsAdd(pkg, rt, pkg.outputs)))
  }

  lemma CompileGains(pkg: Package, rt: Runtime, order: seq<string>)
    requires Compile(pkg, rt, order).Done?
    ensures Gained(NOTHING, Compile(pkg, rt, order).value, TaskAdds(pkg, rt, order))
  {
    FlagsEntered(pkg);
    SlotsKeyed(pkg, rt, order);
    var b := EnteredFlags(pkg).value;
    SlotsGain(pkg, rt, b, pkg.slots);
    var c := ParseSlots(pkg, rt, b, pkg.slots).value;
    TemplatesGain(pkg, rt, c, order);
    var d := ParseTemplates(pkg, rt, c, order).value;
    OutputsGain(pkg, rt, d, pkg.outputs);
    var e := ParseOutputs(pkg, rt, d, pkg.outputs).value;
    GainedTwice(c, d, e, TemplatesAdd(pkg, rt, SlotKeys(pkg, rt), order), OutputsAdd(pkg, rt, pkg.outputs));
    GainedTwice(b, c, e, SlotsAdd(rt, pkg.slots),
                Both(TemplatesAdd(pkg, rt, SlotKeys(pkg, rt), order), OutputsAdd(pkg, rt, pkg.outputs)));
  }

  /** The files of a task are, in order, those put in each slot of the use case, those of each template and
      the output files the use case writes; its collections are those of its outputs in order; and standard
      input is what was mounted there last, as a text for a text slot or the text of a template, as a path
      for a file slot or the name of a template. */
  lemma TaskHolds(pkg: Package, rt: Runtime, order: seq<string>)
    requires ParseTask(pkg, rt, order).Done?
    ensures var task := ParseTask(pkg, rt, order).value;
            var keys := SlotKeys(pkg, rt);
            && task.files == FlatMap(pkg.slots, FilesOfSlot(rt)) + FlatMap(order, FilesOfTemplate(pkg, rt, keys))
                             + FlatMap(pkg.outputs, FilesOfOutput(pkg, rt))
            && task.collects == FlatMap(pkg.outputs, CollectsOfOutput(pkg, rt))
            && task.stdin == LastOf(StdNone, FlatMap(pkg.slots, MountsOfSlot(rt))
                                             + FlatMap(order, MountsOfTemplate(pkg, rt, keys)))
  {
    CompileGains(pkg, rt, order);
    var keys := SlotKeys(pkg, rt);
    AddedInOrder(SlotsAdd(rt, pkg.slots), TemplatesAdd(pkg, rt, keys, order), OutputsAdd(pkg, rt, pkg.outputs));
    GainedFromNothing(Compile(pkg, rt, order).value, TaskAdds(pkg, rt, order));
  }

  lemma AddedInOrder(x: Added, y: Added, z: Added)
    requires x.collects == y.collects == [] && z.mounts == []
    ensures Both(x, Both(y, z)) == Added(x.files + y.files + z.files, x.mounts + y.mounts, z.collects)
  {
  }

  lemma GainedFromNothing(b: Build, more: Added)
    requires Gained(NOTHING, b, more)
    ensures b.files == more.files && b.stdin == LastOf(StdNone, more.mounts) && b.collects == more.collects
  {
  }

  // ---------------------------------------------------------------- when it succeeds

  lemma ContentDone(pkg: Package, rt: Runtime, slot: InputSlot)
    requires SlotFits(rt, slot)
    ensures GetContent(rt, slot.descriptor).Done? <==> TextsStored(rt, slot.descriptor)
  {
    var kind := NodeSlot(rt, slot.descriptor).value.kind;
    ContentFits(rt, slot);
    if kind.TextSlot? && kind.texts.Some? { TextsAre(rt, kind.texts.value); }
  }

  lemma SlotDone(pkg: Package, rt: Runtime, b: Build, slot: InputSlot)
    requires SlotFits(rt, slot) && SlotResolves(pkg, slot)
    ensures ParseSlot(pkg, rt, b, slot).Done? <==> TextsStored(rt, slot.descriptor)
  {
    var content := GetContent(rt, slot.descriptor);
    ContentFits(rt, slot);
    ContentDone(pkg, rt, slot);
    if content.Done? {
      ContentIs(rt, slot.descriptor);
      var c := if content.value.Some? then b.(files := b.files + content.value.value.infiles) else b;
      var value := Values(pkg, rt, map[]);
      match slot
      case TextInput(d, refs) => RefsParsed(pkg, c, refs, Slot(d), value, TextStdIn(content.value));
      case FileInput(d, refs) => FileRefsParsed(pkg, c, refs, Slot(d), value, FileStdIn(content.value));
    }
  }

  lemma {:induction false} SlotsDone(pkg: Package, rt: Runtime, b: Build, slots: seq<InputSlot>)
    requires forall s :: s in slots ==> SlotFits(rt, s) && SlotResolves(pkg, s)
    ensures ParseSlots(pkg, rt, b, slots).Done? <==> forall s :: s in slots ==> TextsStored(rt, s.descriptor)
    decreases |slots|
  {
    if slots != [] {
      assert slots == [slots[0]] + slots[1..];
      SlotDone(pkg, rt, b, slots[0]);
      var c := ParseSlot(pkg, rt, b, slots[0]);
      if c.Done? { SlotsDone(pkg, rt, c.value, slots[1..]); }
    }
  }

  lemma {:induction false} CollectedDone(pkg: Package, rt: Runtime, outputs: seq<OutputSlot>, d: string)
    requires var out := FileOutputNamed(outputs, d);
             && out.Some? && out.value.origin.UsecaseOut?
             && Find(pkg.fileOutputs, MaterialName, out.value.origin.material).Some?
             && AppointmentFits(rt, out.value.origin.appointed)
    ensures CollectedPath(pkg, rt, outputs, d).Done? <==>
            AppointedStored(rt, FileOutputNamed(outputs, d).value.origin.appointed)
  {
    if !(outputs[0].FileOutput? && outputs[0].descriptor == d) { CollectedDone(pkg, rt, outputs[1..], d); }
  }

  lemma SourceDone(pkg: Package, rt: Runtime, from: CollectFrom, isText: bool)
    requires SourceResolves(pkg, from, isText) && forall o :: o in pkg.outputs ==> OutputFits(rt, o)
    ensures ParseSource(pkg, rt, from).Done? <==>
            (from.FromFile? ==> AppointedStored(rt, FileOutputNamed(pkg.outputs, from.slot).value.origin.appointed))
  {
    if from.FromFile? { CollectedDone(pkg, rt, pkg.outputs, from.slot); }
  }

  lemma OutputDone(pkg: Package, rt: Runtime, b: Build, out: OutputSlot)
    requires OutputResolves(pkg, out) && OutputFits(rt, out) && forall o :: o in pkg.outputs ==> OutputFits(rt, o)
    ensures ParseOutput(pkg, rt, b, out).Done? <==> OutputReady(pkg, rt, out)
  {
    var c := CollectorOf(pkg, out);
    if c.Some? { SourceDone(pkg, rt, c.value.from, out.TextOutput?); }
  }

  lemma {:induction false} OutputsDone(pkg: Package, rt: Runtime, b: Build, outputs: seq<OutputSlot>)
    requires forall o :: o in outputs ==> OutputResolves(pkg, o) && OutputFits(rt, o)
    requires forall o :: o in pkg.outputs ==> OutputFits(rt, o)
    ensures ParseOutputs(pkg, rt, b, outputs).Done? <==> forall o :: o in outputs ==> OutputReady(pkg, rt, o)
    decreases |outputs|
  {
    if outputs != [] {
      assert outputs == [outputs[0]] + outputs[1..];
      OutputDone(pkg, rt, b, outputs[0]);
      var c := ParseOutput(pkg, rt, b, outputs[0]);
      if c.Done? { OutputsDone(pkg, rt, c.value, outputs[1..]); }
    }
  }

  /** The template engine takes the text of every template some slot fills, with the literals of the slots
      for keys. */
  ghost predicate AllRender(pkg: Package, rt: Runtime) {
    forall t :: Used(pkg, t) ==> Rendered(pkg, rt, SlotKeys(pkg, rt), t).Some?
  }

  /** What is left to go wrong on a node that fits: a text that is not stored, a template that does not
      render, an output of the wrong kind. */
  ghost predicate Supplied(pkg: Package, rt: Runtime) {
    && (forall s :: s in pkg.slots ==> TextsStored(rt, s.descriptor))
    && AllRender(pkg, rt)
    && forall o :: o in pkg.outputs ==> OutputReady(pkg, rt, o)
  }

  lemma TemplatesDone(pkg: Package, rt: Runtime, b: Build, order: seq<string>)
    requires WellFormed(pkg) && Enumerates(pkg, order) && b.templates == SlotKeys(pkg, rt)
    ensures ParseTemplates(pkg, rt, b, order).Done? <==> AllRender(pkg, rt)
  {
    TemplatesParsed(pkg, rt, b, order);
    forall t | t in order
      ensures Renders(pkg, rt, b.templates, t) <==> Rendered(pkg, rt, SlotKeys(pkg, rt), t).Some?
    {
    }
    assert forall t :: t in order <==> Used(pkg, t);
  }

  lemma CompiledExactly(pkg: Package, rt: Runtime, order: seq<string>, b: Build)
    requires WellFormed(pkg) && Conforms(pkg, rt) && Enumerates(pkg, order) && b.templates == map[]
    ensures CompileFrom(pkg, rt, order, b).Done? <==> Supplied(pkg, rt)
  {
    SlotsDone(pkg, rt, b, pkg.slots);
    var c := ParseSlots(pkg, rt, b, pkg.slots);
    if c.Done? {
      SlotsParsed(pkg, rt, b, pkg.slots, map[]);
      SameLiterals(map[], pkg.slots, Values(pkg, rt, map[]), LiteralOf(rt));
      TemplatesDone(pkg, rt, c.value, order);
      var d := ParseTemplates(pkg, rt, c.value, order);
      if d.Done? { OutputsDone(pkg, rt, d.value, pkg.outputs); }
    }
  }

  /** On a node that fits it an accepted package compiles exactly when every flag names a material, every text
      put in its slots is stored, every used template renders, and every output slot of the node is of the
      kind of the output, the texts that appoint paths being stored. */
  lemma CompilesExactly(pkg: Package, rt: Runtime, checkedIn: seq<string>, compiledIn: seq<string>)
    requires Enumerates(pkg, checkedIn) && Enumerates(pkg, compiledIn)
    requires Validate(pkg, checkedIn).Done? && Conforms(pkg, rt)
    ensures ParseTask(pkg, rt, compiledIn).Done? <==> FlagsResolve(pkg) && Supplied(pkg, rt)
  {
    ValidateAccepts(pkg, checkedIn);
    FlagsExact(pkg);
    var b := EnteredFlags(pkg);
    if b.Done? {
      FlagsEntered(pkg);
      CompiledExactly(pkg, rt, compiledIn, b.value);
    }
    TaskDone(pkg, rt, compiledIn);
  }

  lemma TaskDone(pkg: Package, rt: Runtime, order: seq<string>)
    ensures var b := EnteredFlags(pkg);
            ParseTask(pkg, rt, order).Done? <==> b.Done? && CompileFrom(pkg, rt, order, b.value).Done?
  {
  }
}
