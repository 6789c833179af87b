/** `parse_task` as it runs: loops over flags, slots, templates and outputs that fill one task. Each loop
    computes the function the theorems are about. */
module SoftwareComputingLoops {
  import opened Basics
  import opened FormatTables
  import opened PackageModel
  import opened SoftwareComputing
  import opened Placeholder
  import Text
  import W = WorkflowModel

  // ---------------------------------------------------------------- the input of a slot

  function Preceded(front: seq<string>, rest: Outcome<seq<string>, Refusal>): Outcome<seq<string>, Refusal> {
    if rest.Done? then Done(front + rest.value) else rest
  }

  method FetchTexts(rt: Runtime, ids: seq<Uuid>) returns (r: Outcome<seq<string>, Refusal>)
    ensures r == Texts(rt, ids)
  {
    var texts: seq<string>, i := [], 0;
    assert ids[0..] == ids;
    assert Texts(rt, ids).Done? ==> [] + Texts(rt, ids).value == Texts(rt, ids).value;
    while i < |ids|
      invariant 0 <= i <= |ids|
      invariant Preceded(texts, Texts(rt, ids[i..])) == Texts(rt, ids)
    {
      assert ids[i..][0] == ids[i] && ids[i..][1..] == ids[i + 1..];
      if ids[i] !in rt.texts { return Outcome.Failed(NoText); }
      var rest := Texts(rt, ids[i + 1..]);
      if rest.Done? { assert texts + ([rt.texts[ids[i]]] + rest.value) == texts + [rt.texts[ids[i]]] + rest.value; }
      texts := texts + [rt.texts[ids[i]]];
      i := i + 1;
    }
    assert ids[i..] == [] && texts + [] == texts;
    return Done(texts);
  }

  lemma {:induction false} FileAdded(front: seq<W.FileInput>, f: W.FileInput, expected: Option<string>, isBatch: bool)
    ensures InFileNames(front + [f], expected) == InFileNames(front, expected) + [InFileName(f, expected)]
    ensures InFiles(front + [f], expected, isBatch) ==
            InFiles(front, expected, isBatch) + [InputFile(InFileName(f, expected), isBatch, ById(f.fileId))]
  {
    if front == [] {
      assert front + [f] == [f] && [f][1..] == [];
    } else {
      assert (front + [f])[1..] == front[1..] + [f];
      FileAdded(front[1..], f, expected, isBatch);
    }
  }

  lemma FileTaken(inputs: seq<W.FileInput>, i: nat, expected: Option<string>, isBatch: bool)
    requires i < |inputs|
    ensures InFileNames(inputs[..i + 1], expected) ==
            InFileNames(inputs[..i], expected) + [InFileName(inputs[i], expected)]
    ensures InFiles(inputs[..i + 1], expected, isBatch) ==
            InFiles(inputs[..i], expected, isBatch)
            + [InputFile(InFileName(inputs[i], expected), isBatch, ById(inputs[i].fileId))]
  {
    assert inputs[..i + 1] == inputs[..i] + [inputs[i]];
    FileAdded(inputs[..i], inputs[i], expected, isBatch);
  }

  lemma FilesTaken(inputs: seq<W.FileInput>, expected: Option<string>, isBatch: bool)
    ensures InFileNames(inputs[..0], expected) == [] && InFiles(inputs[..0], expected, isBatch) == []
    ensures inputs[..|inputs|] == inputs
  {
  }

  method ListFiles(inputs: seq<W.FileInput>, expected: Option<string>, isBatch: bool)
    returns (names: seq<string>, infos: seq<FileInfo>)
    ensures names == InFileNames(inputs, expected) && infos == InFiles(inputs, expected, isBatch)
  {
    names, infos := [], [];
    var i := 0;
    FilesTaken(inputs, expected, isBatch);
    while i < |inputs|
      invariant 0 <= i <= |inputs|
      invariant names == InFileNames(inputs[..i], expected)
      invariant infos == InFiles(inputs[..i], expected, isBatch)
    {
      FileTaken(inputs, i, expected, isBatch);
      var name := if expected.Some? then expected.value else inputs[i].name;
      names := names + [name];
      infos := infos + [InputFile(name, isBatch, ById(inputs[i].fileId))];
      i := i + 1;
    }
  }

  method FetchContent(rt: Runtime, d: string) returns (r: Outcome<Option<InContent>, Refusal>)
    ensures r == GetContent(rt, d)
  {
    var found := Find(rt.node.inputs, W.InputName, d);
    if found.None? { return Panicked; }
    var slot := found.value;
    if slot.kind.UnknownSlot? { return Panicked; }
    if !HasContents(slot) && slot.optional { return Done(None); }
    if !HasContents(slot) { return Panicked; }
    match slot.kind {
      case TextSlot(texts) =>
        var values :- FetchTexts(rt, texts.value);
        return Done(Some(InContent(Text.Join(values, " "), [])));
      case FileSlot(inputs, expected, isBatch) =>
        var names, infos := ListFiles(inputs.value, expected, isBatch);
        return Done(Some(InContent(Text.Join(names, " "), infos)));
    }
  }

  // ---------------------------------------------------------------- flags, slots and templates

  method EnterFlags(pkg: Package, b0: Build) returns (r: Outcome<Build, Refusal>)
    ensures r == FlagArguments(pkg, b0, pkg.flagArguments)
  {
    var b, i := b0, 0;
    var flags := pkg.flagArguments;
    assert flags[0..] == flags;
    while i < |flags|
      invariant 0 <= i <= |flags|
      invariant FlagArguments(pkg, b, flags[i..]) == FlagArguments(pkg, b0, flags)
    {
      assert flags[i..][0] == flags[i] && flags[i..][1..] == flags[i + 1..];
      var a :- FindUnwrap<Argument, string, Refusal>(pkg.arguments, ArgumentName, flags[i].0);
      var sort := flags[i].1;
      if sort !in b.args { b := b.(args := b.args[sort := Fill(a.valueFormat, map[])]); }
      i := i + 1;
    }
    return Done(b);
  }

  method EnterEnvironmentFlags(pkg: Package, b0: Build) returns (r: Outcome<Build, Refusal>)
    ensures r == FlagEnvironments(pkg, b0, pkg.flagEnvironments)
  {
    var b, i := b0, 0;
    var flags := pkg.flagEnvironments;
    assert flags[0..] == flags;
    while i < |flags|
      invariant 0 <= i <= |flags|
      invariant FlagEnvironments(pkg, b, flags[i..]) == FlagEnvironments(pkg, b0, flags)
    {
      assert flags[i..][0] == flags[i] && flags[i..][1..] == flags[i + 1..];
      var e :- FindUnwrap<Environment, string, Refusal>(pkg.environments, EnvironmentName, flags[i]);
      if e.key !in b.envs { b := b.(envs := b.envs[e.key := Fill(e.valueFormat, map[])]); }
      i := i + 1;
    }
    return Done(b);
  }

  method EnterRefs(pkg: Package, b0: Build, refs: seq<Ref>, value: Option<string>, stdin: Outcome<StdIn, Refusal>)
    returns (r: Outcome<Build, Refusal>)
    ensures r == ParseRefs(pkg, b0, refs, value, stdin)
  {
    var b, i := b0, 0;
    assert refs[0..] == refs;
    while i < |refs|
      invariant 0 <= i <= |refs|
      invariant ParseRefs(pkg, b, refs[i..], value, stdin) == ParseRefs(pkg, b0, refs, value, stdin)
    {
      assert refs[i..][0] == refs[i] && refs[i..][1..] == refs[i + 1..];
      b :- ParseRef(pkg, b, refs[i], value, stdin);
      i := i + 1;
    }
    return Done(b);
  }

  method EnterFileRefs(pkg: Package, b0: Build, refs: seq<FileRef>, value: Option<string>,
                       stdin: Outcome<StdIn, Refusal>) returns (r: Outcome<Build, Refusal>)
    ensures r == ParseFileRefs(pkg, b0, refs, value, stdin)
  {
    var b, i := b0, 0;
    assert refs[0..] == refs;
    while i < |refs|
      invariant 0 <= i <= |refs|
      invariant ParseFileRefs(pkg, b, refs[i..], value, stdin) == ParseFileRefs(pkg, b0, refs, value, stdin)
    {
      assert refs[i..][0] == refs[i] && refs[i..][1..] == refs[i + 1..];
      if refs[i].Mount? {
        b :- ParseRef(pkg, b, refs[i].ref, value, stdin);
      }
      i := i + 1;
    }
    return Done(b);
  }

  method EnterSlot(pkg: Package, rt: Runtime, b0: Build, slot: InputSlot) returns (r: Outcome<Build, Refusal>)
    ensures r == ParseSlot(pkg, rt, b0, slot)
  {
    var content :- FetchContent(rt, slot.descriptor);
    var b := b0;
    if content.Some? { b := b.(files := b.files + content.value.infiles); }
    match slot
    case TextInput(_, refs) => r := EnterRefs(pkg, b, refs, Literal(content), TextStdIn(content));
    case FileInput(_, refs) => r := EnterFileRefs(pkg, b, refs, Literal(content), FileStdIn(content));
  }

  method EnterSlots(pkg: Package, rt: Runtime, b0: Build) returns (r: Outcome<Build, Refusal>)
    ensures r == ParseSlots(pkg, rt, b0, pkg.slots)
  {
    var b, i := b0, 0;
    var slots := pkg.slots;
    assert slots[0..] == slots;
    while i < |slots|
      invariant 0 <= i <= |slots|
      invariant ParseSlots(pkg, rt, b, slots[i..]) == ParseSlots(pkg, rt, b0, slots)
    {
      assert slots[i..][0] == slots[i] && slots[i..][1..] == slots[i + 1..];
      b :- EnterSlot(pkg, rt, b, slots[i]);
      i := i + 1;
    }
    return Done(b);
  }

  method EnterContents(pkg: Package, b0: Build, refs: seq<Ref>, filled: string) returns (r: Outcome<Build, Refusal>)
    ensures r == ParseContents(pkg, b0, refs, filled)
  {
    var b, i := b0, 0;
    assert refs[0..] == refs;
    while i < |refs|
      invariant 0 <= i <= |refs|
      invariant ParseContents(pkg, b, refs[i..], filled) == ParseContents(pkg, b0, refs, filled)
    {
      assert refs[i..][0] == refs[i] && refs[i..][1..] == refs[i + 1..];
      if refs[i].TemplateRef? { return Panicked; }
      b :- ParseRef(pkg, b, refs[i], Some(filled), Done(StdText(filled)));
      i := i + 1;
    }
    return Done(b);
  }

  method EnterNames(pkg: Package, b0: Build, names: seq<FileRef>, fileName: string, filled: string)
    returns (r: Outcome<Build, Refusal>)
    ensures r == ParseNames(pkg, b0, names, fileName, filled)
  {
    var b, i := b0, 0;
    assert names[0..] == names;
    while i < |names|
      invariant 0 <= i <= |names|
      invariant ParseNames(pkg, b, names[i..], fileName, filled) == ParseNames(pkg, b0, names, fileName, filled)
    {
      assert names[i..][0] == names[i] && names[i..][1..] == names[i + 1..];
      b :- ParseName(pkg, b, names[i], fileName, filled);
      i := i + 1;
    }
    return Done(b);
  }

  method EnterTemplate(pkg: Package, rt: Runtime, b0: Build, t: string) returns (r: Outcome<Build, Refusal>)
    ensures r == ParseTemplate(pkg, rt, b0, t)
  {
    var file :- FindUnwrap<TemplateFile, string, Refusal>(pkg.templates, TemplateName, t);
    var info :- FindUnwrap<TemplateInfo, string, Refusal>(pkg.infos, InfoName, t);
    var filled := rt.render(info.content, KeysOf(b0, t));
    if filled.None? { return Outcome.Failed(RenderError); }
    var b :- EnterContents(pkg, b0, file.asContent, filled.value);
    if NamesAFile(file.asFileName) {
      b := b.(files := b.files + [InputFile(info.fileName, false, ByContent(filled.value))]);
    }
    r := EnterNames(pkg, b, file.asFileName, info.fileName, filled.value);
  }

  method EnterTemplates(pkg: Package, rt: Runtime, b0: Build, order: seq<string>) returns (r: Outcome<Build, Refusal>)
    ensures r == ParseTemplates(pkg, rt, b0, order)
  {
    var b, i := b0, 0;
    assert order[0..] == order;
    while i < |order|
      invariant 0 <= i <= |order|
      invariant ParseTemplates(pkg, rt, b, order[i..]) == ParseTemplates(pkg, rt, b0, order)
    {
      assert order[i..][0] == order[i] && order[i..][1..] == order[i + 1..];
      b :- EnterTemplate(pkg, rt, b, order[i]);
      i := i + 1;
    }
    return Done(b);
  }

  // ---------------------------------------------------------------- outputs

  method FindPath(pkg: Package, rt: Runtime, d: string) returns (r: Outcome<string, Refusal>)
    ensures r == CollectedPath(pkg, rt, pkg.outputs, d)
  {
    var outputs := pkg.outputs;
    var i := 0;
    assert outputs[0..] == outputs;
    while i < |outputs|
      invariant 0 <= i <= |outputs|
      invariant CollectedPath(pkg, rt, outputs[i..], d) == CollectedPath(pkg, rt, outputs, d)
    {
      assert outputs[i..][0] == outputs[i] && outputs[i..][1..] == outputs[i + 1..];
      if outputs[i].FileOutput? && outputs[i].descriptor == d {
        match outputs[i].origin
        case CollectedOut(_) => return Panicked;
        case UsecaseOut(m, appointed) =>
          var material :- FindUnwrap<FileMaterial, string, Refusal>(pkg.fileOutputs, MaterialName, m);
          var alter :- Appoint(rt, appointed);
          return Done(PathFor(alter, material.kind));
      }
      i := i + 1;
    }
    return Done("");
  }

  method FindSource(pkg: Package, rt: Runtime, from: CollectFrom) returns (r: Outcome<TaskFrom, Refusal>)
    ensures r == ParseSource(pkg, rt, from)
  {
    match from
    case FromFile(d) =>
      var path :- FindPath(pkg, rt, d);
      return Done(TaskFile(path));
    case FromStdout => return Done(TaskStdout);
    case FromStderr => return Done(TaskStderr);
  }

  method EnterOutput(pkg: Package, rt: Runtime, b: Build, out: OutputSlot) returns (r: Outcome<Build, Refusal>)
    ensures r == ParseOutput(pkg, rt, b, out)
  {
    match out
    case TextOutput(d, c, optional) =>
      var collector :- FindUnwrap<Collector, string, Refusal>(pkg.collectors, CollectorName, c);
      var from :- FindSource(pkg, rt, collector.from);
      if !collector.to.ToText? { return Panicked; }
      var id :- PreparedId(rt, d, W.TextOut);
      return Done(b.(collects := b.collects + [Collect(from, collector.rule, TaskToText(id), optional)]));
    case FileOutput(d, origin, optional) =>
      var _ :- FindUnwrap<W.SpecOutput, string, Refusal>(rt.node.outputs, W.SpecOutName, d);
      match origin
      case CollectedOut(c) =>
        var collector :- FindUnwrap<Collector, string, Refusal>(pkg.collectors, CollectorName, c);
        var from :- FindSource(pkg, rt, collector.from);
        if !collector.to.ToFile? { return Panicked; }
        var id :- PreparedId(rt, d, W.FileOut);
        return Done(b.(collects := b.collects
                       + [Collect(from, collector.rule, TaskToFile(collector.to.file.path, id), optional)]));
      case UsecaseOut(m, appointed) =>
        var material :- FindUnwrap<FileMaterial, string, Refusal>(pkg.fileOutputs, MaterialName, m);
        var alter :- Appoint(rt, appointed);
        var id :- PreparedId(rt, d, W.FileOut);
        return Done(b.(files := b.files
                       + [OutputFile(id, PathFor(alter, material.kind), material.kind.Batched?, optional)]));
  }

  method EnterOutputs(pkg: Package, rt: Runtime, b0: Build) returns (r: Outcome<Build, Refusal>)
    ensures r == ParseOutputs(pkg, rt, b0, pkg.outputs)
  {
    var b, i := b0, 0;
    var outputs := pkg.outputs;
    assert outputs[0..] == outputs;
    while i < |outputs|
      invariant 0 <= i <= |outputs|
      invariant ParseOutputs(pkg, rt, b, outputs[i..]) == ParseOutputs(pkg, rt, b0, outputs)
    {
      assert outputs[i..][0] == outputs[i] && outputs[i..][1..] == outputs[i + 1..];
      b :- EnterOutput(pkg, rt, b, outputs[i]);
      i := i + 1;
    }
    return Done(b);
  }

  // ---------------------------------------------------------------- the whole

  method FillFormat(f: Fill<Option<string>>) returns (text: string)
    ensures text == FilledFormat(f)
  {
    text := FillPlaceholders(f.format, f.fills);
  }

  /** The formats at some sorts, filled one after the other. */
  method FillAt(args: map<nat, Fill<Option<string>>>, sorts: seq<nat>) returns (arguments: seq<string>)
    requires forall k :: k in sorts ==> k in args
    ensures arguments == ArgumentsAt(args, sorts)
  {
    arguments := [];
    for i := 0 to |sorts|
      invariant |arguments| == i
      invariant forall j :: 0 <= j < i ==> arguments[j] == ArgumentsAt(args, sorts)[j]
    {
      var text := FillFormat(args[sorts[i]]);
      arguments := arguments + [text];
    }
  }

  /** The sorts in ascending order, and their formats filled. */
  method FillArguments(args: map<nat, Fill<Option<string>>>) returns (arguments: seq<string>)
    ensures arguments == Arguments(args)
  {
    var sorts := Ascending(args.Keys);
    arguments := FillAt(args, sorts);
  }

  /** The environments but for those left to fill. */
  function FilledBut(envs: map<string, Fill<Option<string>>>, left: set<string>): map<string, string> {
    map k | k in envs && k !in left :: FilledFormat(envs[k])
  }

  lemma FilledNext(envs: map<string, Fill<Option<string>>>, left: set<string>, k: string)
    requires k in envs
    ensures FilledBut(envs, left)[k := FilledFormat(envs[k])] == FilledBut(envs, left - {k})
  {
  }

  lemma FilledEnds(envs: map<string, Fill<Option<string>>>)
    ensures FilledBut(envs, envs.Keys) == map[] && FilledBut(envs, {}) == Environments(envs)
  {
  }

  method FillEnvironments(envs: map<string, Fill<Option<string>>>) returns (environments: map<string, string>)
    ensures environments == Environments(envs)
  {
    FilledEnds(envs);
    environments := map[];
    var left := envs.Keys;
    while left != {}
      invariant left <= envs.Keys && environments == FilledBut(envs, left)
      decreases left
    {
      var k :| k in left;
      FilledNext(envs, left, k);
      var text := FillFormat(envs[k]);
      environments := environments[k := text];
      left := left - {k};
    }
  }

  method CompileTask(pkg: Package, rt: Runtime, order: seq<string>) returns (r: Outcome<Task, Refusal>)
    ensures r == ParseTask(pkg, rt, order)
  {
    var b :- EnterFlags(pkg, NOTHING);
    b :- EnterEnvironmentFlags(pkg, b);
    b :- EnterSlots(pkg, rt, b);
    b :- EnterTemplates(pkg, rt, b, order);
    b :- EnterOutputs(pkg, rt, b);
    var arguments := FillArguments(b.args);
    var environments := FillEnvironments(b.envs);
    return Done(Task(arguments, environments, b.files, b.stdin, b.collects));
  }
}
