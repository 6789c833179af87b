/** `package_validate` as it runs: loops over slots, references, templates and outputs that fill one
    preview and return at the first error. Each loop computes the function the theorems are about. */
module PackageValidateLoops {
  import opened Basics
  import opened FormatTables
  import opened PackageModel
  import opened PackageValidate
  import opened Placeholder
  import N = Numbering

  method MountRefs(pkg: Package, p0: Preview, refs: seq<Ref>, from: InDescriptor) returns (r: Outcome<Preview, Refusal>)
    ensures r == PreviewRefs(pkg, p0, refs, from)
  {
    var p, i := p0, 0;
    assert refs[0..] == refs;
    while i < |refs|
      invariant 0 <= i <= |refs|
      invariant PreviewRefs(pkg, p, refs[i..], from) == PreviewRefs(pkg, p0, refs, from)
    {
      assert refs[i..][0] == refs[i] && refs[i..][1..] == refs[i + 1..];
      p :- PreviewRef(pkg, p, refs[i], from);
      i := i + 1;
    }
    return Done(p);
  }

  method MountFileRefs(pkg: Package, p0: Preview, refs: seq<FileRef>, from: InDescriptor)
    returns (r: Outcome<Preview, Refusal>)
    ensures r == PreviewFileRefs(pkg, p0, refs, from)
  {
    var p, i := p0, 0;
    assert refs[0..] == refs;
    while i < |refs|
      invariant 0 <= i <= |refs|
      invariant PreviewFileRefs(pkg, p, refs[i..], from) == PreviewFileRefs(pkg, p0, refs, from)
    {
      assert refs[i..][0] == refs[i] && refs[i..][1..] == refs[i + 1..];
      p :- PreviewFileRef(pkg, p, refs[i], from);
      i := i + 1;
    }
    return Done(p);
  }

  method MountSlots(pkg: Package, p0: Preview) returns (r: Outcome<Preview, Refusal>)
    ensures r == PreviewSlots(pkg, p0, pkg.slots)
  {
    var p, i := p0, 0;
    var slots := pkg.slots;
    assert slots[0..] == slots;
    while i < |slots|
      invariant 0 <= i <= |slots|
      invariant PreviewSlots(pkg, p, slots[i..]) == PreviewSlots(pkg, p0, slots)
    {
      assert slots[i..][0] == slots[i] && slots[i..][1..] == slots[i + 1..];
      match slots[i] {
        case TextInput(d, refs) => p :- MountRefs(pkg, p, refs, FromSlot(d));
        case FileInput(d, refs) => p :- MountFileRefs(pkg, p, refs, FromSlot(d));
      }
      i := i + 1;
    }
    return Done(p);
  }

  method CheckFileNames(pkg: Package) returns (r: Outcome<(), Refusal>)
    ensures r == CheckTemplates(pkg, pkg.templates)
  {
    var files := pkg.templates;
    var i := 0;
    assert files[0..] == files;
    while i < |files|
      invariant 0 <= i <= |files|
      invariant CheckTemplates(pkg, files[i..]) == CheckTemplates(pkg, files)
    {
      assert files[i..][0] == files[i] && files[i..][1..] == files[i + 1..];
      var names := files[i].asFileName;
      var j := 0;
      assert names[0..] == names;
      while j < |names|
        invariant 0 <= j <= |names|
        invariant CheckNames(pkg, names[j..]) == CheckNames(pkg, names)
      {
        assert names[j..][0] == names[j] && names[j..][1..] == names[j + 1..];
        var _ :- CheckName(pkg, names[j]);
        j := j + 1;
      }
      i := i + 1;
    }
    return Done(());
  }

  method MountContents(pkg: Package, p0: Preview, refs: seq<Ref>, from: InDescriptor)
    returns (r: Outcome<Preview, Refusal>)
    ensures r == PreviewContents(pkg, p0, refs, from)
  {
    var p, i := p0, 0;
    assert refs[0..] == refs;
    while i < |refs|
      invariant 0 <= i <= |refs|
      invariant PreviewContents(pkg, p, refs[i..], from) == PreviewContents(pkg, p0, refs, from)
    {
      assert refs[i..][0] == refs[i] && refs[i..][1..] == refs[i + 1..];
      if refs[i].TemplateRef? { return Outcome.Failed(Unimplemented); }
      p :- PreviewRef(pkg, p, refs[i], from);
      i := i + 1;
    }
    return Done(p);
  }

  method MountNames(pkg: Package, p0: Preview, names: seq<FileRef>, from: InDescriptor)
    returns (r: Outcome<Preview, Refusal>)
    ensures r == PreviewNames(pkg, p0, names, from)
  {
    var p, i := p0, 0;
    assert names[0..] == names;
    while i < |names|
      invariant 0 <= i <= |names|
      invariant PreviewNames(pkg, p, names[i..], from) == PreviewNames(pkg, p0, names, from)
    {
      assert names[i..][0] == names[i] && names[i..][1..] == names[i + 1..];
      if !MountsDirectly(names[i]) { return Outcome.Failed(Unimplemented); }
      p :- PreviewFileRef(pkg, p, names[i], from);
      i := i + 1;
    }
    return Done(p);
  }

  method MountTemplate(pkg: Package, p0: Preview, t: string) returns (r: Outcome<Preview, Refusal>)
    ensures r == PreviewTemplate(pkg, p0, t)
  {
    var file :- FindOr(pkg.templates, TemplateName, t, NoTemplate);
    var _ :- FindOr(pkg.infos, InfoName, t, NoTemplate);
    var p :- MountContents(pkg, p0, file.asContent, FromTemplate(t));
    if NamesAFile(file.asFileName) {
      p := p.(files := p.files + [DynamicInput(FromTemplate(t))]);
    }
    r := MountNames(pkg, p, file.asFileName, FromTemplate(t));
  }

  method MountTemplates(pkg: Package, p0: Preview, order: seq<string>) returns (r: Outcome<Preview, Refusal>)
    ensures r == PreviewTemplates(pkg, p0, order)
  {
    var p, i := p0, 0;
    assert order[0..] == order;
    while i < |order|
      invariant 0 <= i <= |order|
      invariant PreviewTemplates(pkg, p, order[i..]) == PreviewTemplates(pkg, p0, order)
    {
      assert order[i..][0] == order[i] && order[i..][1..] == order[i + 1..];
      p :- MountTemplate(pkg, p, order[i]);
      i := i + 1;
    }
    return Done(p);
  }

  /** The scan of the input slots: the slot is remembered, and must have been found. */
  method CheckAppointing(slots: seq<InputSlot>, d: string) returns (r: Outcome<(), Refusal>)
    ensures r == CheckAppointed(slots, d)
  {
    var found := false;
    var i := 0;
    assert slots[0..] == slots;
    while i < |slots| && !found
      invariant 0 <= i <= |slots|
      invariant if found then CheckAppointed(slots, d) == Done(())
                else CheckAppointed(slots[i..], d) == CheckAppointed(slots, d)
    {
      assert slots[i..][0] == slots[i] && slots[i..][1..] == slots[i + 1..];
      match slots[i] {
        case TextInput(descriptor, _) => found := descriptor == d;
        case FileInput(descriptor, _) => if descriptor == d { return Outcome.Failed(Mismatched); }
      }
      i := i + 1;
    }
    if !found { return Outcome.Failed(NoSlot); }
    return Done(());
  }

  method FindCollected(pkg: Package, d: string, isText: bool) returns (r: Outcome<FileMaterial, Refusal>)
    ensures r == CollectedMaterial(pkg, pkg.outputs, d, isText)
  {
    var outputs := pkg.outputs;
    var i := 0;
    assert outputs[0..] == outputs;
    while i < |outputs|
      invariant 0 <= i <= |outputs|
      invariant CollectedMaterial(pkg, outputs[i..], d, isText) == CollectedMaterial(pkg, outputs, d, isText)
    {
      assert outputs[i..][0] == outputs[i] && outputs[i..][1..] == outputs[i + 1..];
      if outputs[i].FileOutput? && outputs[i].descriptor == d {
        match outputs[i].origin
        case CollectedOut(_) => return Outcome.Failed(Unimplemented);
        case UsecaseOut(m, appointed) =>
          var material :- FindOr(pkg.fileOutputs, MaterialName, m, NoMaterial);
          if isText && appointed.BySlot? {
            var _ :- CheckAppointing(pkg.slots, appointed.descriptor);
          }
          return Done(material);
      }
      i := i + 1;
    }
    return Panicked;
  }

  method MountOutputs(pkg: Package, p0: Preview) returns (r: Outcome<Preview, Refusal>)
    ensures r == PreviewOutputs(pkg, p0, pkg.outputs)
  {
    var p, i := p0, 0;
    var outputs := pkg.outputs;
    assert outputs[0..] == outputs;
    while i < |outputs|
      invariant 0 <= i <= |outputs|
      invariant PreviewOutputs(pkg, p, outputs[i..]) == PreviewOutputs(pkg, p0, outputs)
    {
      assert outputs[i..][0] == outputs[i] && outputs[i..][1..] == outputs[i + 1..];
      p :- MountOutput(pkg, p, outputs[i]);
      i := i + 1;
    }
    return Done(p);
  }

  method CollectSource(pkg: Package, from: CollectFrom, isText: bool) returns (r: Outcome<PreviewFrom, Refusal>)
    ensures r == PreviewSource(pkg, from, isText)
  {
    match from
    case FromFile(d) =>
      var m :- FindCollected(pkg, d, isText);
      return Done(PreviewFile(m.descriptor));
    case FromStdout => return Done(PreviewStdout);
    case FromStderr => return Done(PreviewStderr);
  }

  method MountOutput(pkg: Package, p: Preview, out: OutputSlot) returns (r: Outcome<Preview, Refusal>)
    ensures r == PreviewOutput(pkg, p, out)
  {
    match out
    case TextOutput(_, c, optional) =>
      var collector :- FindOr(pkg.collectors, CollectorName, c, NoCollector);
      var from :- CollectSource(pkg, collector.from, true);
      if !collector.to.ToText? { return Outcome.Failed(Mismatched); }
      return Done(p.(collects := p.collects + [CollectPreview(from, collector.rule, PreviewToText, optional)]));
    case FileOutput(_, CollectedOut(c), optional) =>
      var collector :- FindOr(pkg.collectors, CollectorName, c, NoCollector);
      var from :- CollectSource(pkg, collector.from, false);
      if !collector.to.ToFile? { return Outcome.Failed(Mismatched); }
      return Done(p.(collects := p.collects
                     + [CollectPreview(from, collector.rule, PreviewToFile(collector.to.file.path), optional)]));
    case FileOutput(_, UsecaseOut(m, appointed), _) =>
      var material :- FindOr(pkg.fileOutputs, MaterialName, m, NoMaterial);
      match appointed
      case BySlot(d) => return Done(p.(files := p.files + [DynamicOutput(FromSlot(d), material.descriptor)]));
      case ByMaterial => return Done(p.(files := p.files + [ConstOutput(material.descriptor, material.kind.path)]));
  }

  method ValidatePackage(pkg: Package, order: seq<string>) returns (r: Outcome<Preview, Refusal>)
    ensures r == Validate(pkg, order)
  {
    var p :- MountSlots(pkg, EMPTY);
    var _ :- CheckFileNames(pkg);
    p :- MountTemplates(pkg, p, order);
    p :- MountOutputs(pkg, p);
    var sorts := N.CheckSorts(Ascending(p.args.Keys));
    match sorts
    case Done(_) => return Done(p);
    case Failed(_) => return Outcome.Failed(BadSort);
    case Panicked => return Panicked;
  }
}
