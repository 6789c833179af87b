/** `package_validate`: accepts or rejects a package and compiles a preview of its command. */
module PackageValidate {
  import opened Basics
  import opened FormatTables
  import opened PackageModel
  import opened Placeholder
  import N = Numbering

  datatype InDescriptor = FromTemplate(descriptor: string) | FromSlot(descriptor: string) | Nowhere

  datatype FilePreview = DynamicInput(from: InDescriptor)
                       | ConstInput(from: InDescriptor, material: string, path: string)
                       | DynamicOutput(from: InDescriptor, material: string)
                       | ConstOutput(material: string, path: string)

  datatype PreviewFrom = PreviewFile(material: string) | PreviewStdout | PreviewStderr

  datatype PreviewTo = PreviewToFile(path: string) | PreviewToText

  datatype CollectPreview = CollectPreview(from: PreviewFrom, rule: CollectRule, to: PreviewTo, optional: bool)

  datatype Preview = Preview(args: map<nat, Fill<InDescriptor>>, envs: map<string, Fill<InDescriptor>>,
                             templates: map<string, map<string, InDescriptor>>, stdin: InDescriptor,
                             files: seq<FilePreview>, collects: seq<CollectPreview>)

  const EMPTY := Preview(map[], map[], map[], Nowhere, [], [])

  /** How the preview names the source of a filling. */
  function Describe(s: Source): InDescriptor {
    match s
    case Slot(d) => FromSlot(d)
    case Content(t) => FromTemplate(t)
    case Name(t) => FromTemplate(t)
  }

  function Described(): Source -> InDescriptor { s => Describe(s) }

  // ---------------------------------------------------------------- references

  function PreviewRef(pkg: Package, p: Preview, ref: Ref, from: InDescriptor): Outcome<Preview, Refusal> {
    match ref
    case ArgRef(d, sort, nth) =>
      var a :- FindOr(pkg.arguments, ArgumentName, d, NoMaterial);
      Done(p.(args := Put(p.args, sort, a.valueFormat, nth, from)))
    case EnvRef(d, nth) =>
      var e :- FindOr(pkg.environments, EnvironmentName, d, NoMaterial);
      Done(p.(envs := Put(p.envs, e.key, e.valueFormat, nth, from)))
    case StdInRef => Done(p.(stdin := from))
    case TemplateRef(t, keys) => Done(p.(templates := PutKeys(p.templates, t, keys, from)))
  }

  function PreviewFileRef(pkg: Package, p: Preview, ref: FileRef, from: InDescriptor): Outcome<Preview, Refusal> {
    match ref
    case Mount(r) => PreviewRef(pkg, p, r, from)
    case FileInputRef(d) =>
      var m :- FindOr(pkg.fileInputs, MaterialName, d, NoMaterial);
      Done(p.(files := p.files + [ConstInput(from, d, m.kind.path)]))
  }

  function PreviewRefs(pkg: Package, p: Preview, refs: seq<Ref>, from: InDescriptor): Outcome<Preview, Refusal>
    decreases |refs|
  {
    if refs == [] then Done(p)
    else
      var q :- PreviewRef(pkg, p, refs[0], from);
      PreviewRefs(pkg, q, refs[1..], from)
  }

  function PreviewFileRefs(pkg: Package, p: Preview, refs: seq<FileRef>, from: InDescriptor): Outcome<Preview, Refusal>
    decreases |refs|
  {
    if refs == [] then Done(p)
    else
      var q :- PreviewFileRef(pkg, p, refs[0], from);
      PreviewFileRefs(pkg, q, refs[1..], from)
  }

  function PreviewSlot(pkg: Package, p: Preview, slot: InputSlot): Outcome<Preview, Refusal> {
    match slot
    case TextInput(d, refs) => PreviewRefs(pkg, p, refs, FromSlot(d))
    case FileInput(d, refs) => PreviewFileRefs(pkg, p, refs, FromSlot(d))
  }

  function PreviewSlots(pkg: Package, p: Preview, slots: seq<InputSlot>): Outcome<Preview, Refusal>
    decreases |slots|
  {
    if slots == [] then Done(p)
    else
      var q :- PreviewSlot(pkg, p, slots[0]);
      PreviewSlots(pkg, q, slots[1..])
  }

  // ---------------------------------------------------------------- templates

  /** The first look at the names of a template: every material must be there. */
  function CheckName(pkg: Package, ref: FileRef): Outcome<(), Refusal> {
    match ref
    case Mount(ArgRef(d, _, _)) => var _ :- FindOr(pkg.arguments, ArgumentName, d, NoMaterial); Done(())
    case Mount(EnvRef(d, _)) => var _ :- FindOr(pkg.environments, EnvironmentName, d, NoMaterial); Done(())
    case Mount(StdInRef) => Done(())
    case Mount(TemplateRef(_, _)) => Outcome.Failed(Unimplemented)
    case FileInputRef(d) => var _ :- FindOr(pkg.fileInputs, MaterialName, d, NoMaterial); Done(())
  }

  function CheckNames(pkg: Package, names: seq<FileRef>): Outcome<(), Refusal> {
    if names == [] then Done(())
    else
      var _ :- CheckName(pkg, names[0]);
      CheckNames(pkg, names[1..])
  }

  function CheckTemplates(pkg: Package, files: seq<TemplateFile>): Outcome<(), Refusal> {
    if files == [] then Done(())
    else
      var _ :- CheckNames(pkg, files[0].asFileName);
      CheckTemplates(pkg, files[1..])
  }

  function PreviewContents(pkg: Package, p: Preview, refs: seq<Ref>, from: InDescriptor): Outcome<Preview, Refusal>
    decreases |refs|
  {
    if refs == [] then Done(p)
    else if refs[0].TemplateRef? then Outcome.Failed(Unimplemented)
    else
      var q :- PreviewRef(pkg, p, refs[0], from);
      PreviewContents(pkg, q, refs[1..], from)
  }

  function PreviewNames(pkg: Package, p: Preview, names: seq<FileRef>, from: InDescriptor): Outcome<Preview, Refusal>
    decreases |names|
  {
    if names == [] then Done(p)
    else if !MountsDirectly(names[0]) then Outcome.Failed(Unimplemented)
    else
      var q :- PreviewFileRef(pkg, p, names[0], from);
      PreviewNames(pkg, q, names[1..], from)
  }

  function PreviewTemplate(pkg: Package, p: Preview, t: string): Outcome<Preview, Refusal> {
    var file :- FindOr(pkg.templates, TemplateName, t, NoTemplate);
    var _ :- FindOr(pkg.infos, InfoName, t, NoTemplate);
    var q :- PreviewContents(pkg, p, file.asContent, FromTemplate(t));
    var r := if NamesAFile(file.asFileName) then q.(files := q.files + [DynamicInput(FromTemplate(t))]) else q;
    PreviewNames(pkg, r, file.asFileName, FromTemplate(t))
  }

  function PreviewTemplates(pkg: Package, p: Preview, order: seq<string>): Outcome<Preview, Refusal>
    decreases |order|
  {
    if order == [] then Done(p)
    else
      var q :- PreviewTemplate(pkg, p, order[0]);
      PreviewTemplates(pkg, q, order[1..])
  }

  // ---------------------------------------------------------------- outputs

  /** The scan of the input slots for the one that appoints a path. */
  function CheckAppointed(slots: seq<InputSlot>, d: string): Outcome<(), Refusal> {
    if slots == [] then Outcome.Failed(NoSlot)
    else if slots[0].descriptor == d then if slots[0].TextInput? then Done(()) else Outcome.Failed(Mismatched)
    else CheckAppointed(slots[1..], d)
  }

  /** The scan of the output slots for the file a collector reads. Nothing found is unwrapped. */
  function CollectedMaterial(pkg: Package, outputs: seq<OutputSlot>, d: string,
                             isText: bool): Outcome<FileMaterial, Refusal> {
    if outputs == [] then Panicked
    else if outputs[0].FileOutput? && outputs[0].descriptor == d then
      match outputs[0].origin
      case CollectedOut(_) => Outcome.Failed(Unimplemented)
      case UsecaseOut(m, appointed) =>
        var material :- FindOr(pkg.fileOutputs, MaterialName, m, NoMaterial);
        var _ :- if isText && appointed.BySlot? then CheckAppointed(pkg.slots, appointed.descriptor) else Done(());
        Done(material)
    else CollectedMaterial(pkg, outputs[1..], d, isText)
  }

  function PreviewSource(pkg: Package, from: CollectFrom, isText: bool): Outcome<PreviewFrom, Refusal> {
    match from
    case FromFile(d) =>
      var m :- CollectedMaterial(pkg, pkg.outputs, d, isText);
      Done(PreviewFile(m.descriptor))
    case FromStdout => Done(PreviewStdout)
    case FromStderr => Done(PreviewStderr)
  }

  function PreviewOutput(pkg: Package, p: Preview, out: OutputSlot): Outcome<Preview, Refusal> {
    match out
    case TextOutput(_, c, optional) =>
      var collector :- FindOr(pkg.collectors, CollectorName, c, NoCollector);
      var from :- PreviewSource(pkg, collector.from, true);
      if collector.to.ToText? then
        Done(p.(collects := p.collects + [CollectPreview(from, collector.rule, PreviewToText, optional)]))
      else Outcome.Failed(Mismatched)
    case FileOutput(_, CollectedOut(c), optional) =>
      var collector :- FindOr(pkg.collectors, CollectorName, c, NoCollector);
      var from :- PreviewSource(pkg, collector.from, false);
      if collector.to.ToFile? then
        Done(p.(collects := p.collects
                + [CollectPreview(from, collector.rule, PreviewToFile(collector.to.file.path), optional)]))
      else Outcome.Failed(Mismatched)
    case FileOutput(_, UsecaseOut(m, appointed), _) =>
      var material :- FindOr(pkg.fileOutputs, MaterialName, m, NoMaterial);
      match appointed
      case BySlot(d) => Done(p.(files := p.files + [DynamicOutput(FromSlot(d), material.descriptor)]))
      case ByMaterial => Done(p.(files := p.files + [ConstOutput(material.descriptor, material.kind.path)]))
  }

  function PreviewOutputs(pkg: Package, p: Preview, outputs: seq<OutputSlot>): Outcome<Preview, Refusal>
    decreases |outputs|
  {
    if outputs == [] then Done(p)
    else
      var q :- PreviewOutput(pkg, p, outputs[0]);
      PreviewOutputs(pkg, q, outputs[1..])
  }

  // ---------------------------------------------------------------- the whole

  /** The scan over the sorted keys, with its error. */
  function CheckSorts(args: map<nat, Fill<InDescriptor>>): Outcome<(), Refusal> {
    match N.Check(Ascending(args.Keys))
    case Done(_) => Done(())
    case Failed(_) => Outcome.Failed(BadSort)
    case Panicked => Panicked
  }

  /** `package_validate`, the table of used templates iterated in the order given. */
  function Validate(pkg: Package, order: seq<string>): Outcome<Preview, Refusal> {
    var p :- PreviewSlots(pkg, EMPTY, pkg.slots);
    var _ :- CheckTemplates(pkg, pkg.templates);
    var q :- PreviewTemplates(pkg, p, order);
    var r :- PreviewOutputs(pkg, q, pkg.outputs);
    var _ :- CheckSorts(r.args);
    Done(r)
  }

  // ---------------------------------------------------------------- what each part writes

  /** The tables after the references of one source, whatever else changed. */
  ghost predicate Wrote(pkg: Package, p: Preview, q: Preview, refs: seq<Ref>, source: Source) {
    && q.args == Written(p.args, ArgWrites(pkg, refs, source), Described())
    && q.envs == Written(p.envs, EnvWrites(pkg, refs, source), Described())
    && q.templates == KeyRefs(p.templates, refs, Describe(source))
    && q.stdin == LastMounted(p.stdin, StdMounts(refs, source), Described())
  }

  lemma RefWrote(pkg: Package, p: Preview, ref: Ref, source: Source)
    ensures var q := PreviewRef(pkg, p, ref, Describe(source));
            && (q.Done? <==> Resolves(pkg, ref)) && !q.Panicked?
            && (q.Done? ==>
                  && Wrote(pkg, p, q.value, [ref], source)
                  && q.value.files == p.files && q.value.collects == p.collects)
  {
    assert [ref][1..] == [] && ArgWrites(pkg, [], source) == [] && EnvWrites(pkg, [], source) == [];
    MountedOnce(p.stdin, ref, source, Described());
    WrittenOne(p.args, ArgWrites(pkg, [ref], source));
    WrittenOne(p.envs, EnvWrites(pkg, [ref], source));
  }

  lemma WrittenOne<K>(table: map<K, Fill<InDescriptor>>, writes: seq<Write<K>>)
    requires |writes| <= 1
    ensures Written(table, writes, Described()) ==
            if writes == [] then table
            else Put(table, writes[0].key, writes[0].format, writes[0].nth, Describe(writes[0].source))
  {
    if writes != [] { assert writes[1..] == []; }
  }

  lemma WroteMore(pkg: Package, p: Preview, q: Preview, r: Preview, a: seq<Ref>, b: seq<Ref>, source: Source)
    requires Wrote(pkg, p, q, a, source) && Wrote(pkg, q, r, b, source)
    ensures Wrote(pkg, p, r, a + b, source)
  {
    WritesConcat(pkg, a, b, source);
    WrittenConcat(p.args, ArgWrites(pkg, a, source), ArgWrites(pkg, b, source), Described());
    WrittenConcat(p.envs, EnvWrites(pkg, a, source), EnvWrites(pkg, b, source), Described());
    KeyRefsConcat(p.templates, a, b, Describe(source));
    MountedTwice(p.stdin, StdMounts(a, source), StdMounts(b, source), Described());
  }

  lemma WritesConcat(pkg: Package, a: seq<Ref>, b: seq<Ref>, source: Source)
    ensures ArgWrites(pkg, a + b, source) == ArgWrites(pkg, a, source) + ArgWrites(pkg, b, source)
    ensures EnvWrites(pkg, a + b, source) == EnvWrites(pkg, a, source) + EnvWrites(pkg, b, source)
    ensures StdMounts(a + b, source) == StdMounts(a, source) + StdMounts(b, source)
  {
    ArgWritesConcat(pkg, a, b, source);
    EnvWritesConcat(pkg, a, b, source);
    StdMountsConcat(a, b, source);
  }

  lemma {:induction false} ArgWritesConcat(pkg: Package, a: seq<Ref>, b: seq<Ref>, source: Source)
    ensures ArgWrites(pkg, a + b, source) == ArgWrites(pkg, a, source) + ArgWrites(pkg, b, source)
  {
    if a == [] {
      assert a + b == b;
    } else {
      assert (a + b)[0] == a[0] && (a + b)[1..] == a[1..] + b;
      ArgWritesConcat(pkg, a[1..], b, source);
    }
  }

  lemma {:induction false} EnvWritesConcat(pkg: Package, a: seq<Ref>, b: seq<Ref>, source: Source)
    ensures EnvWrites(pkg, a + b, source) == EnvWrites(pkg, a, source) + EnvWrites(pkg, b, source)
  {
    if a == [] {
      assert a + b == b;
    } else {
      assert (a + b)[0] == a[0] && (a + b)[1..] == a[1..] + b;
      EnvWritesConcat(pkg, a[1..], b, source);
    }
  }

  lemma {:induction false} StdMountsConcat(a: seq<Ref>, b: seq<Ref>, source: Source)
    ensures StdMounts(a + b, source) == StdMounts(a, source) + StdMounts(b, source)
  {
    if a == [] {
      assert a + b == b;
    } else {
      assert (a + b)[0] == a[0] && (a + b)[1..] == a[1..] + b;
      StdMountsConcat(a[1..], b, source);
    }
  }

  lemma {:induction false} RefsWrote(pkg: Package, p: Preview, refs: seq<Ref>, source: Source)
    ensures var q := PreviewRefs(pkg, p, refs, Describe(source));
            && (q.Done? <==> forall r :: r in refs ==> Resolves(pkg, r)) && !q.Panicked?
            && (q.Done? ==> Wrote(pkg, p, q.value, refs, source) && q.value.collects == p.collects)
    decreases |refs|
  {
    if refs != [] {
      RefWrote(pkg, p, refs[0], source);
      var q := PreviewRef(pkg, p, refs[0], Describe(source));
      assert refs == [refs[0]] + refs[1..];
      if q.Done? {
        RefsWrote(pkg, q.value, refs[1..], source);
        var r := PreviewRefs(pkg, q.value, refs[1..], Describe(source));
        if r.Done? { WroteMore(pkg, p, q.value, r.value, [refs[0]], refs[1..], source); }
      }
    }
  }

  lemma FileRefWrote(pkg: Package, p: Preview, ref: FileRef, source: Source)
    ensures var q := PreviewFileRef(pkg, p, ref, Describe(source));
            && (q.Done? <==> FileResolves(pkg, ref)) && !q.Panicked?
            && (q.Done? ==> Wrote(pkg, p, q.value, Mounts([ref]), source) && q.value.collects == p.collects)
  {
    assert [ref][1..] == [];
    if ref.Mount? {
      assert Mounts([ref]) == [ref.ref];
      RefWrote(pkg, p, ref.ref, source);
    }
  }

  lemma MountsCons(refs: seq<FileRef>)
    requires refs != []
    ensures Mounts(refs) == Mounts([refs[0]]) + Mounts(refs[1..])
  {
    assert [refs[0]][1..] == [];
  }

  lemma {:induction false} FileRefsWrote(pkg: Package, p: Preview, refs: seq<FileRef>, source: Source)
    ensures var q := PreviewFileRefs(pkg, p, refs, Describe(source));
            && (q.Done? <==> forall r :: r in refs ==> FileResolves(pkg, r)) && !q.Panicked?
            && (q.Done? ==> Wrote(pkg, p, q.value, Mounts(refs), source) && q.value.collects == p.collects)
    decreases |refs|
  {
    if refs != [] {
      FileRefWrote(pkg, p, refs[0], source);
      MountsCons(refs);
      assert refs == [refs[0]] + refs[1..];
      var q := PreviewFileRef(pkg, p, refs[0], Describe(source));
      if q.Done? {
        FileRefsWrote(pkg, q.value, refs[1..], source);
        var r := PreviewFileRefs(pkg, q.value, refs[1..], Describe(source));
        if r.Done? { WroteMore(pkg, p, q.value, r.value, Mounts([refs[0]]), Mounts(refs[1..]), source); }
      }
    }
  }

  lemma SlotWrote(pkg: Package, p: Preview, slot: InputSlot)
    ensures var q := PreviewSlot(pkg, p, slot);
            && (q.Done? <==> SlotResolves(pkg, slot)) && !q.Panicked?
            && (q.Done? ==>
                  && Wrote(pkg, p, q.value, RefsOf(slot), Slot(slot.descriptor))
                  && q.value.collects == p.collects)
  {
    match slot
    case TextInput(d, refs) => RefsWrote(pkg, p, refs, Slot(d));
    case FileInput(d, refs) => FileRefsWrote(pkg, p, refs, Slot(d));
  }

  lemma {:induction false} SlotsWrote(pkg: Package, p: Preview, slots: seq<InputSlot>)
    ensures var q := PreviewSlots(pkg, p, slots);
            && (q.Done? <==> forall s :: s in slots ==> SlotResolves(pkg, s)) && !q.Panicked?
            && (q.Done? ==>
                  && q.value.args == Written(p.args, SlotArgs(pkg, slots), Described())
                  && q.value.envs == Written(p.envs, SlotEnvs(pkg, slots), Described())
                  && q.value.templates == KeySlots(p.templates, slots, Described())
                  && q.value.stdin == LastMounted(p.stdin, SlotStd(slots), Described())
                  && q.value.collects == p.collects)
    decreases |slots|
  {
    if slots != [] {
      SlotWrote(pkg, p, slots[0]);
      assert slots == [slots[0]] + slots[1..];
      var q := PreviewSlot(pkg, p, slots[0]);
      if q.Done? {
        SlotsWrote(pkg, q.value, slots[1..]);
        var from := Slot(slots[0].descriptor);
        WrittenConcat(p.args, ArgWrites(pkg, RefsOf(slots[0]), from), SlotArgs(pkg, slots[1..]), Described());
        WrittenConcat(p.envs, EnvWrites(pkg, RefsOf(slots[0]), from), SlotEnvs(pkg, slots[1..]), Described());
        MountedTwice(p.stdin, StdMounts(RefsOf(slots[0]), from), SlotStd(slots[1..]), Described());
      }
    }
  }

  // ---------------------------------------------------------------- templates

  lemma {:induction false} NamesChecked(pkg: Package, names: seq<FileRef>)
    ensures (CheckNames(pkg, names).Done? <==> NamesResolve(pkg, names)) && !CheckNames(pkg, names).Panicked?
  {
    if names != [] {
      NamesChecked(pkg, names[1..]);
      assert names == [names[0]] + names[1..];
      assert CheckName(pkg, names[0]).Done? <==> MountsDirectly(names[0]) && FileResolves(pkg, names[0]);
    }
  }

  lemma {:induction false} TemplatesChecked(pkg: Package, files: seq<TemplateFile>)
    ensures CheckTemplates(pkg, files).Done? <==> forall t :: t in files ==> NamesResolve(pkg, t.asFileName)
    ensures !CheckTemplates(pkg, files).Panicked?
  {
    if files != [] {
      NamesChecked(pkg, files[0].asFileName);
      TemplatesChecked(pkg, files[1..]);
      assert files == [files[0]] + files[1..];
    }
  }

  lemma {:induction false} ContentsWrote(pkg: Package, p: Preview, refs: seq<Ref>, source: Source)
    ensures var q := PreviewContents(pkg, p, refs, Describe(source));
            && (q.Done? <==> forall r :: r in refs ==> !r.TemplateRef? && Resolves(pkg, r)) && !q.Panicked?
            && (q.Done? ==> Wrote(pkg, p, q.value, refs, source) && q.value.collects == p.collects)
    decreases |refs|
  {
    if refs != [] {
      RefWrote(pkg, p, refs[0], source);
      assert refs == [refs[0]] + refs[1..];
      var q := PreviewRef(pkg, p, refs[0], Describe(source));
      if q.Done? && !refs[0].TemplateRef? {
        ContentsWrote(pkg, q.value, refs[1..], source);
        var r := PreviewContents(pkg, q.value, refs[1..], Describe(source));
        if r.Done? { WroteMore(pkg, p, q.value, r.value, [refs[0]], refs[1..], source); }
      }
    }
  }

  lemma {:induction false} NamesWrote(pkg: Package, p: Preview, names: seq<FileRef>, source: Source)
    ensures var q := PreviewNames(pkg, p, names, Describe(source));
            && (q.Done? <==> NamesResolve(pkg, names)) && !q.Panicked?
            && (q.Done? ==> Wrote(pkg, p, q.value, Mounts(names), source) && q.value.collects == p.collects)
    decreases |names|
  {
    if names != [] {
      FileRefWrote(pkg, p, names[0], source);
      MountsCons(names);
      assert names == [names[0]] + names[1..];
      var q := PreviewFileRef(pkg, p, names[0], Describe(source));
      if q.Done? && MountsDirectly(names[0]) {
        NamesWrote(pkg, q.value, names[1..], source);
        var r := PreviewNames(pkg, q.value, names[1..], Describe(source));
        if r.Done? { WroteMore(pkg, p, q.value, r.value, Mounts([names[0]]), Mounts(names[1..]), source); }
      }
    }
  }

  lemma TemplateWrote(pkg: Package, p: Preview, t: string)
    ensures var q := PreviewTemplate(pkg, p, t);
            && (q.Done? <==> TemplateResolves(pkg, t)) && !q.Panicked?
            && (q.Done? ==>
                  && q.value.args == Written(p.args, TemplateArgs(pkg, t), Described())
                  && q.value.envs == Written(p.envs, TemplateEnvs(pkg, t), Described())
                  && q.value.stdin == LastMounted(p.stdin, TemplateStd(pkg, t), Described())
                  && q.value.templates == p.templates && q.value.collects == p.collects)
  {
    var file := Find(pkg.templates, TemplateName, t);
    if file.Some? && Find(pkg.infos, InfoName, t).Some? {
      var contents, names := file.value.asContent, file.value.asFileName;
      ContentsWrote(pkg, p, contents, Content(t));
      var q := PreviewContents(pkg, p, contents, FromTemplate(t));
      if q.Done? {
        var r := if NamesAFile(names) then q.value.(files := q.value.files + [DynamicInput(FromTemplate(t))])
                 else q.value;
        NamesWrote(pkg, r, names, Name(t));
        KeyRefsNone(p.templates, contents, FromTemplate(t));
        if NamesResolve(pkg, names) { KeyRefsNone(p.templates, Mounts(names), FromTemplate(t)); }
        WrittenConcat(p.args, ArgWrites(pkg, contents, Content(t)), ArgWrites(pkg, Mounts(names), Name(t)),
                      Described());
        WrittenConcat(p.envs, EnvWrites(pkg, contents, Content(t)), EnvWrites(pkg, Mounts(names), Name(t)),
                      Described());
        MountedTwice(p.stdin, StdMounts(contents, Content(t)), StdMounts(Mounts(names), Name(t)), Described());
      }
    }
  }

  lemma {:induction false} TemplatesWrote(pkg: Package, p: Preview, order: seq<string>)
    ensures var q := PreviewTemplates(pkg, p, order);
            && (q.Done? <==> forall t :: t in order ==> TemplateResolves(pkg, t)) && !q.Panicked?
            && (q.Done? ==>
                  && q.value.args == Written(p.args, Blocks(order, ArgBlock(pkg)), Described())
                  && q.value.envs == Written(p.envs, Blocks(order, EnvBlock(pkg)), Described())
                  && q.value.stdin == LastMounted(p.stdin, Blocks(order, StdBlock(pkg)), Described())
                  && q.value.templates == p.templates && q.value.collects == p.collects)
    decreases |order|
  {
    if order != [] {
      TemplateWrote(pkg, p, order[0]);
      assert order == [order[0]] + order[1..];
      var q := PreviewTemplate(pkg, p, order[0]);
      if q.Done? {
        TemplatesWrote(pkg, q.value, order[1..]);
        WrittenConcat(p.args, TemplateArgs(pkg, order[0]), Blocks(order[1..], ArgBlock(pkg)), Described());
        WrittenConcat(p.envs, TemplateEnvs(pkg, order[0]), Blocks(order[1..], EnvBlock(pkg)), Described());
        MountedTwice(p.stdin, TemplateStd(pkg, order[0]), Blocks(order[1..], StdBlock(pkg)), Described());
      }
    }
  }

  // ---------------------------------------------------------------- outputs

  lemma {:induction false} AppointedChecked(slots: seq<InputSlot>, d: string)
    ensures (CheckAppointed(slots, d).Done? <==> AppointsText(slots, d)) && !CheckAppointed(slots, d).Panicked?
  {
    if slots != [] && slots[0].descriptor != d { AppointedChecked(slots[1..], d); }
  }

  lemma {:induction false} CollectedIs(pkg: Package, outputs: seq<OutputSlot>, d: string, isText: bool)
    ensures var out := FileOutputNamed(outputs, d);
            var m := CollectedMaterial(pkg, outputs, d, isText);
            && (m.Done? <==>
                  && out.Some? && out.value.origin.UsecaseOut?
                  && Find(pkg.fileOutputs, MaterialName, out.value.origin.material).Some?
                  && (isText && out.value.origin.appointed.BySlot? ==>
                      AppointsText(pkg.slots, out.value.origin.appointed.descriptor)))
            && (m.Panicked? <==> out.None?)
            && (m.Done? ==> Find(pkg.fileOutputs, MaterialName, out.value.origin.material) == Some(m.value))
  {
    if outputs != [] {
      if outputs[0].FileOutput? && outputs[0].descriptor == d {
        if outputs[0].origin.UsecaseOut? && outputs[0].origin.appointed.BySlot? {
          AppointedChecked(pkg.slots, outputs[0].origin.appointed.descriptor);
        }
      } else {
        CollectedIs(pkg, outputs[1..], d, isText);
      }
    }
  }

  lemma SourceIs(pkg: Package, from: CollectFrom, isText: bool)
    ensures PreviewSource(pkg, from, isText).Done? <==> SourceResolves(pkg, from, isText)
    ensures PreviewSource(pkg, from, isText).Panicked? <==>
            from.FromFile? && FileOutputNamed(pkg.outputs, from.slot).None?
  {
    if from.FromFile? { CollectedIs(pkg, pkg.outputs, from.slot, isText); }
  }

  lemma OutputWrote(pkg: Package, p: Preview, out: OutputSlot)
    ensures var q := PreviewOutput(pkg, p, out);
            && (q.Done? <==> OutputResolves(pkg, out)) && (q.Panicked? <==> ReadsUnmatched(pkg, out))
            && (q.Done? ==>
                  && q.value.args == p.args && q.value.envs == p.envs
                  && q.value.templates == p.templates && q.value.stdin == p.stdin)
  {
    var c := if out.TextOutput? then out.collector else if out.origin.CollectedOut? then out.origin.descriptor else "";
    var collector := Find(pkg.collectors, CollectorName, c);
    if collector.Some? { SourceIs(pkg, collector.value.from, out.TextOutput?); }
  }

  lemma {:induction false} OutputsWrote(pkg: Package, p: Preview, outputs: seq<OutputSlot>)
    ensures var q := PreviewOutputs(pkg, p, outputs);
            && (q.Done? <==> forall o :: o in outputs ==> OutputResolves(pkg, o))
            && (q.Panicked? <==> MeetsUnmatched(pkg, outputs))
            && (q.Done? ==>
                  && q.value.args == p.args && q.value.envs == p.envs
                  && q.value.templates == p.templates && q.value.stdin == p.stdin)
    decreases |outputs|
  {
    if outputs != [] {
      OutputWrote(pkg, p, outputs[0]);
      assert outputs == [outputs[0]] + outputs[1..];
      var q := PreviewOutput(pkg, p, outputs[0]);
      if q.Done? {
        OutputsWrote(pkg, q.value, outputs[1..]);
        MeetsLater(pkg, outputs);
      } else {
        MeetsNow(pkg, outputs);
      }
    }
  }

  lemma MeetsNow(pkg: Package, outputs: seq<OutputSlot>)
    requires outputs != [] && !OutputResolves(pkg, outputs[0])
    ensures MeetsUnmatched(pkg, outputs) <==> ReadsUnmatched(pkg, outputs[0])
  {
    if ReadsUnmatched(pkg, outputs[0]) { assert MeetsAt(pkg, outputs, 0); }
  }

  lemma MeetsLater(pkg: Package, outputs: seq<OutputSlot>)
    requires outputs != [] && OutputResolves(pkg, outputs[0])
    ensures MeetsUnmatched(pkg, outputs) <==> MeetsUnmatched(pkg, outputs[1..])
  {
    var rest := outputs[1..];
    if i :| MeetsAt(pkg, outputs, i) {
      assert rest[i - 1] == outputs[i] && forall j :: 0 <= j < i - 1 ==> rest[j] == outputs[j + 1];
      assert MeetsAt(pkg, rest, i - 1);
    }
    if i :| MeetsAt(pkg, rest, i) {
      assert outputs[i + 1] == rest[i];
      forall j | 0 <= j < i + 1 ensures OutputResolves(pkg, outputs[j]) {
        if j > 0 { assert outputs[j] == rest[j - 1]; }
      }
      assert MeetsAt(pkg, outputs, i + 1);
    }
  }

  // ---------------------------------------------------------------- acceptance

  lemma KeysAre(pkg: Package, order: seq<string>, args: map<nat, Fill<InDescriptor>>)
    requires args == Written(map[], AllArgs(pkg, order), Described())
    ensures forall k :: k in args <==> FirstFormat(AllArgs(pkg, order), k).Some?
  {
    forall k: nat ensures k in args <==> FirstFormat(AllArgs(pkg, order), k).Some? {
      WrittenFormat<nat, InDescriptor>(map[], AllArgs(pkg, order), Described(), k);
    }
  }

  lemma CheckSortsIs(args: map<nat, Fill<InDescriptor>>)
    ensures (CheckSorts(args).Done? <==> N.UpTo(args.Keys)) && !CheckSorts(args).Panicked?
  {
    N.NumberingExact(args.Keys);
  }

  lemma UpToIsNumbered(pkg: Package, order: seq<string>, keys: set<nat>)
    requires forall k: nat :: k in keys <==> FirstFormat(AllArgs(pkg, order), k).Some?
    ensures N.UpTo(keys) <==> Numbered(pkg, order)
  {
    if n: nat :| SortsUpTo(AllArgs(pkg, order), n) {
      assert keys == InitialKeys(n);
    }
    if N.UpTo(keys) {
      assert SortsUpTo(AllArgs(pkg, order), |keys|);
    }
  }

  lemma SortsChecked(pkg: Package, order: seq<string>, args: map<nat, Fill<InDescriptor>>)
    requires args == Written(map[], AllArgs(pkg, order), Described())
    ensures (CheckSorts(args).Done? <==> Numbered(pkg, order)) && !CheckSorts(args).Panicked?
  {
    KeysAre(pkg, order, args);
    CheckSortsIs(args);
    UpToIsNumbered(pkg, order, args.Keys);
  }

  /** The preview's tables are what the references of the package write, and acceptance is exactly
      well-formedness with arguments numbered from 0. */
  lemma ValidateAccepts(pkg: Package, order: seq<string>)
    requires Enumerates(pkg, order)
    ensures Validate(pkg, order).Done? <==> WellFormed(pkg) && Numbered(pkg, order)
    ensures Validate(pkg, order).Done? ==>
              var p := Validate(pkg, order).value;
              && p.args == Written(map[], AllArgs(pkg, order), Described())
              && p.envs == Written(map[], AllEnvs(pkg, order), Described())
              && p.templates == KeySlots(map[], pkg.slots, Described())
              && p.stdin == LastMounted(Nowhere, AllStd(pkg, order), Described())
  {
    SlotsWrote(pkg, EMPTY, pkg.slots);
    TemplatesChecked(pkg, pkg.templates);
    var p := PreviewSlots(pkg, EMPTY, pkg.slots);
    if p.Done? {
      TemplatesWrote(pkg, p.value, order);
      var q := PreviewTemplates(pkg, p.value, order);
      if q.Done? {
        WrittenConcat<nat, InDescriptor>(map[], SlotArgs(pkg, pkg.slots), Blocks(order, ArgBlock(pkg)), Described());
        WrittenConcat<string, InDescriptor>(map[], SlotEnvs(pkg, pkg.slots), Blocks(order, EnvBlock(pkg)), Described());
        MountedTwice(Nowhere, SlotStd(pkg.slots), Blocks(order, StdBlock(pkg)), Described());
        OutputsWrote(pkg, q.value, pkg.outputs);
        SortsChecked(pkg, order, q.value.args);
      }
    }
  }

  /** The one way to make the validator panic instead of refusing: everything before the outputs
      resolves, and the first output that does not is gathered by a collector that reads a file no File
      output slot names. */
  lemma ValidatePanics(pkg: Package, order: seq<string>)
    requires Enumerates(pkg, order)
    ensures Validate(pkg, order).Panicked? <==>
            && (forall s :: s in pkg.slots ==> SlotResolves(pkg, s))
            && (forall t :: t in pkg.templates ==> NamesResolve(pkg, t.asFileName))
            && (forall t :: Used(pkg, t) ==> TemplateResolves(pkg, t))
            && MeetsUnmatched(pkg, pkg.outputs)
  {
    SlotsWrote(pkg, EMPTY, pkg.slots);
    TemplatesChecked(pkg, pkg.templates);
    var p := PreviewSlots(pkg, EMPTY, pkg.slots);
    if p.Done? {
      TemplatesWrote(pkg, p.value, order);
      var q := PreviewTemplates(pkg, p.value, order);
      if q.Done? {
        WrittenConcat<nat, InDescriptor>(map[], SlotArgs(pkg, pkg.slots), Blocks(order, ArgBlock(pkg)), Described());
        OutputsWrote(pkg, q.value, pkg.outputs);
        SortsChecked(pkg, order, q.value.args);
      }
    }
  }

  /** A package with one text output, collected from a file that no output slot names. */
  const UNMATCHED :=
    Package([], [], [], [], [], [], [], [TextOutput("result", "lines", false)],
            [Collector("lines", FromFile("log"), ToText, TopLines(1))], [], [])

  lemma UnmatchedPanics()
    ensures Enumerates(UNMATCHED, []) && Validate(UNMATCHED, []).Panicked?
  {
    var out := UNMATCHED.outputs[0];
    assert Find(UNMATCHED.collectors, CollectorName, "lines") == Some(UNMATCHED.collectors[0]);
    assert FileOutputNamed(UNMATCHED.outputs[1..], "log").None?;
    assert ReadsUnmatched(UNMATCHED, out);
    ValidatePanics(UNMATCHED, []);
  }
}
