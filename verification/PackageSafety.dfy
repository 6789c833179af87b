/** A package that `package_validate` accepts compiles: nothing `parse_task` unwraps is missing. */
module PackageSafety {
  import opened Basics
  import opened FormatTables
  import opened PackageModel
  import opened PackageValidate
  import opened SoftwareComputing
  import opened TaskContents
  import W = WorkflowModel

  /** The run-time value of a source. `keys` is the table the templates are filled with. */
  function Eval(pkg: Package, rt: Runtime, keys: map<string, map<string, Option<string>>>, s: Source): Option<string> {
    match s
    case Slot(d) => SlotLiteral(rt, d)
    case Content(t) =>
      var info := Find(pkg.infos, InfoName, t);
      if info.Some? then rt.render(info.value.content, if t in keys then keys[t] else map[]) else None
    case Name(t) =>
      var info := Find(pkg.infos, InfoName, t);
      if info.Some? then Some(info.value.fileName) else None
  }

  function Values(pkg: Package, rt: Runtime, keys: map<string, map<string, Option<string>>>): Source -> Option<string> {
    s => Eval(pkg, rt, keys, s)
  }

  // ---------------------------------------------------------------- references

  /** The text or path on standard input. */
  function Carried(s: StdIn): Option<string> {
    match s
    case StdText(text) => Some(text)
    case StdFile(path) => Some(path)
    case StdNone => None
  }

  /** The tables after some references to one source. */
  ghost predicate Entered(pkg: Package, b: Build, c: Build, refs: seq<Ref>, source: Source,
                          value: Source -> Option<string>) {
    && c.args == Written(b.args, ArgWrites(pkg, refs, source), value)
    && c.envs == Written(b.envs, EnvWrites(pkg, refs, source), value)
    && c.templates == KeyRefs(b.templates, refs, value(source))
    && Carried(c.stdin) == LastMounted(Carried(b.stdin), StdMounts(refs, source), value)
  }

  lemma EnteredMore(pkg: Package, b: Build, c: Build, d: Build, x: seq<Ref>, y: seq<Ref>, source: Source,
                    value: Source -> Option<string>)
    requires Entered(pkg, b, c, x, source, value) && Entered(pkg, c, d, y, source, value)
    ensures Entered(pkg, b, d, x + y, source, value)
  {
    WritesConcat(pkg, x, y, source);
    WrittenConcat(b.args, ArgWrites(pkg, x, source), ArgWrites(pkg, y, source), value);
    WrittenConcat(b.envs, EnvWrites(pkg, x, source), EnvWrites(pkg, y, source), value);
    KeyRefsConcat(b.templates, x, y, value(source));
    MountedTwice(Carried(b.stdin), StdMounts(x, source), StdMounts(y, source), value);
  }

  lemma WrittenSingle<K>(table: map<K, Fill<Option<string>>>, writes: seq<Write<K>>, value: Source -> Option<string>)
    requires |writes| <= 1
    ensures Written(table, writes, value) ==
            if writes == [] then table
            else Put(table, writes[0].key, writes[0].format, writes[0].nth, value(writes[0].source))
  {
    if writes != [] { assert writes[1..] == []; }
  }

  lemma RefParsed(pkg: Package, b: Build, ref: Ref, source: Source, value: Source -> Option<string>,
                  stdin: Outcome<StdIn, Refusal>)
    requires stdin.Done? ==> Carried(stdin.value) == value(source)
    ensures var c := ParseRef(pkg, b, ref, value(source), stdin);
            && (c.Done? <==> Resolves(pkg, ref) && (ref.StdInRef? ==> stdin.Done?))
            && (c.Done? ==> Entered(pkg, b, c.value, [ref], source, value))
  {
    assert [ref][1..] == [] && ArgWrites(pkg, [], source) == [] && EnvWrites(pkg, [], source) == [];
    MountedOnce(Carried(b.stdin), ref, source, value);
    WrittenSingle(b.args, ArgWrites(pkg, [ref], source), value);
    WrittenSingle(b.envs, EnvWrites(pkg, [ref], source), value);
  }

  lemma {:induction false} RefsParsed(pkg: Package, b: Build, refs: seq<Ref>, source: Source,
                                      value: Source -> Option<string>, stdin: Outcome<StdIn, Refusal>)
    requires stdin.Done? ==> Carried(stdin.value) == value(source)
    ensures var c := ParseRefs(pkg, b, refs, value(source), stdin);
            && ((forall r :: r in refs ==> Resolves(pkg, r)) && (StdInRef in refs ==> stdin.Done?) ==> c.Done?)
            && (c.Done? ==> Entered(pkg, b, c.value, refs, source, value))
    decreases |refs|
  {
    if refs != [] {
      assert refs == [refs[0]] + refs[1..];
      RefParsed(pkg, b, refs[0], source, value, stdin);
      var c := ParseRef(pkg, b, refs[0], value(source), stdin);
      if c.Done? {
        RefsParsed(pkg, c.value, refs[1..], source, value, stdin);
        var d := ParseRefs(pkg, c.value, refs[1..], value(source), stdin);
        if d.Done? { EnteredMore(pkg, b, c.value, d.value, [refs[0]], refs[1..], source, value); }
      }
    }
  }

  lemma {:induction false} FileRefsParsed(pkg: Package, b: Build, refs: seq<FileRef>, source: Source,
                                          value: Source -> Option<string>, stdin: Outcome<StdIn, Refusal>)
    requires stdin.Done? ==> Carried(stdin.value) == value(source)
    ensures var c := ParseFileRefs(pkg, b, refs, value(source), stdin);
            && ((forall r :: r in refs ==> FileResolves(pkg, r)) && stdin.Done? ==> c.Done?)
            && (c.Done? ==> Entered(pkg, b, c.value, Mounts(refs), source, value))
    decreases |refs|
  {
    if refs != [] {
      assert refs == [refs[0]] + refs[1..];
      match refs[0]
      case FileInputRef(_) =>
        FileRefsParsed(pkg, b, refs[1..], source, value, stdin);
        assert Mounts(refs) == Mounts(refs[1..]);
      case Mount(r) =>
        assert Mounts(refs) == [r] + Mounts(refs[1..]);
        RefParsed(pkg, b, r, source, value, stdin);
        var c := ParseRef(pkg, b, r, value(source), stdin);
        if c.Done? {
          FileRefsParsed(pkg, c.value, refs[1..], source, value, stdin);
          var d := ParseFileRefs(pkg, c.value, refs[1..], value(source), stdin);
          if d.Done? { EnteredMore(pkg, b, c.value, d.value, [r], Mounts(refs[1..]), source, value); }
        }
    }
  }

  // ---------------------------------------------------------------- slots

  lemma {:induction false} TextsNeverPanic(rt: Runtime, ids: seq<Uuid>)
    ensures !Texts(rt, ids).Panicked?
  {
    if ids != [] { TextsNeverPanic(rt, ids[1..]); }
  }

  lemma ContentFits(rt: Runtime, slot: InputSlot)
    requires SlotFits(rt, slot)
    ensures var content := GetContent(rt, slot.descriptor);
            && !content.Panicked?
            && (content.Done? && slot.TextInput? && StdInRef in slot.refs ==> content.value.Some?)
  {
    var s := Find(rt.node.inputs, W.InputName, slot.descriptor).value;
    if s.kind.TextSlot? && s.kind.texts.Some? { TextsNeverPanic(rt, s.kind.texts.value); }
  }

  lemma SlotParsed(pkg: Package, rt: Runtime, b: Build, slot: InputSlot, keys: map<string, map<string, Option<string>>>)
    ensures var c := ParseSlot(pkg, rt, b, slot);
            && (SlotResolves(pkg, slot) && SlotFits(rt, slot) ==> !c.Panicked?)
            && (c.Done? ==> Entered(pkg, b, c.value, RefsOf(slot), Slot(slot.descriptor), Values(pkg, rt, keys)))
  {
    var content := GetContent(rt, slot.descriptor);
    if SlotFits(rt, slot) { ContentFits(rt, slot); }
    if content.Done? {
      ContentIs(rt, slot.descriptor);
      var c := if content.value.Some? then b.(files := b.files + content.value.value.infiles) else b;
      var value := Values(pkg, rt, keys);
      match slot
      case TextInput(d, refs) => RefsParsed(pkg, c, refs, Slot(d), value, TextStdIn(content.value));
      case FileInput(d, refs) => FileRefsParsed(pkg, c, refs, Slot(d), value, FileStdIn(content.value));
    }
  }

  lemma {:induction false} SlotsParsed(pkg: Package, rt: Runtime, b: Build, slots: seq<InputSlot>,
                                       keys: map<string, map<string, Option<string>>>)
    ensures var c := ParseSlots(pkg, rt, b, slots);
            var value := Values(pkg, rt, keys);
            && ((forall s :: s in slots ==> SlotResolves(pkg, s) && SlotFits(rt, s)) ==> !c.Panicked?)
            && (c.Done? ==>
                  && c.value.args == Written(b.args, SlotArgs(pkg, slots), value)
                  && c.value.envs == Written(b.envs, SlotEnvs(pkg, slots), value)
                  && c.value.templates == KeySlots(b.templates, slots, value)
                  && Carried(c.value.stdin) == LastMounted(Carried(b.stdin), SlotStd(slots), value))
    decreases |slots|
  {
    if slots != [] {
      assert slots == [slots[0]] + slots[1..];
      SlotParsed(pkg, rt, b, slots[0], keys);
      var c := ParseSlot(pkg, rt, b, slots[0]);
      if c.Done? {
        SlotsParsed(pkg, rt, c.value, slots[1..], keys);
        var value := Values(pkg, rt, keys);
        var from := Slot(slots[0].descriptor);
        WrittenConcat(b.args, ArgWrites(pkg, RefsOf(slots[0]), from), SlotArgs(pkg, slots[1..]), value);
        WrittenConcat(b.envs, EnvWrites(pkg, RefsOf(slots[0]), from), SlotEnvs(pkg, slots[1..]), value);
        MountedTwice(Carried(b.stdin), StdMounts(RefsOf(slots[0]), from), SlotStd(slots[1..]), value);
      }
    }
  }

  // ---------------------------------------------------------------- templates

  lemma {:induction false} ContentsParsed(pkg: Package, b: Build, refs: seq<Ref>, filled: string, source: Source,
                                          value: Source -> Option<string>)
    requires value(source) == Some(filled)
    ensures var c := ParseContents(pkg, b, refs, filled);
            && (c.Done? <==> forall r :: r in refs ==> !r.TemplateRef? && Resolves(pkg, r))
            && (c.Done? ==> Entered(pkg, b, c.value, refs, source, value))
    decreases |refs|
  {
    if refs != [] {
      assert refs == [refs[0]] + refs[1..];
      var stdin := Done(StdText(filled));
      RefParsed(pkg, b, refs[0], source, value, stdin);
      var c := ParseRef(pkg, b, refs[0], Some(filled), stdin);
      if c.Done? {
        ContentsParsed(pkg, c.value, refs[1..], filled, source, value);
        var d := ParseContents(pkg, c.value, refs[1..], filled);
        if d.Done? { EnteredMore(pkg, b, c.value, d.value, [refs[0]], refs[1..], source, value); }
      }
    }
  }

  lemma NameParsed(pkg: Package, b: Build, ref: FileRef, fileName: string, filled: string, source: Source,
                   value: Source -> Option<string>)
    requires value(source) == Some(fileName)
    ensures var c := ParseName(pkg, b, ref, fileName, filled);
            && (c.Done? <==> MountsDirectly(ref) && FileResolves(pkg, ref))
            && (c.Done? ==> Entered(pkg, b, c.value, Mounts([ref]), source, value))
  {
    assert [ref][1..] == [];
    if ref.Mount? {
      assert Mounts([ref]) == [ref.ref];
      RefParsed(pkg, b, ref.ref, source, value, Done(StdFile(fileName)));
    } else {
      assert Mounts([ref]) == [];
    }
  }

  lemma {:induction false} NamesParsed(pkg: Package, b: Build, names: seq<FileRef>, fileName: string, filled: string,
                                       source: Source, value: Source -> Option<string>)
    requires value(source) == Some(fileName)
    ensures var c := ParseNames(pkg, b, names, fileName, filled);
            && (c.Done? <==> NamesResolve(pkg, names))
            && (c.Done? ==> Entered(pkg, b, c.value, Mounts(names), source, value))
    decreases |names|
  {
    if names != [] {
      assert names == [names[0]] + names[1..];
      MountsCons(names);
      NameParsed(pkg, b, names[0], fileName, filled, source, value);
      var c := ParseName(pkg, b, names[0], fileName, filled);
      if c.Done? {
        NamesParsed(pkg, c.value, names[1..], fileName, filled, source, value);
        var d := ParseNames(pkg, c.value, names[1..], fileName, filled);
        if d.Done? { EnteredMore(pkg, b, c.value, d.value, Mounts([names[0]]), Mounts(names[1..]), source, value); }
      }
    }
  }

  /** The engine accepts the content of a template with the keys it is filled with. */
  predicate Renders(pkg: Package, rt: Runtime, keys: map<string, map<string, Option<string>>>, t: string) {
    var info := Find(pkg.infos, InfoName, t);
    info.Some? && rt.render(info.value.content, if t in keys then keys[t] else map[]).Some?
  }

  lemma TemplateParsed(pkg: Package, rt: Runtime, b: Build, t: string)
    ensures var c := ParseTemplate(pkg, rt, b, t);
            var value := Values(pkg, rt, b.templates);
            && (TemplateResolves(pkg, t) ==> !c.Panicked?)
            && (c.Done? <==> TemplateResolves(pkg, t) && Renders(pkg, rt, b.templates, t))
            && (c.Done? ==>
                  && c.value.args == Written(b.args, TemplateArgs(pkg, t), value)
                  && c.value.envs == Written(b.envs, TemplateEnvs(pkg, t), value)
                  && Carried(c.value.stdin) == LastMounted(Carried(b.stdin), TemplateStd(pkg, t), value)
                  && c.value.templates == b.templates)
  {
    var file, info := Find(pkg.templates, TemplateName, t), Find(pkg.infos, InfoName, t);
    if file.Some? && info.Some? {
      var filled := rt.render(info.value.content, KeysOf(b, t));
      if filled.Some? { TemplateFilled(pkg, rt, b, t, file.value, info.value, filled.value); }
    }
  }

  lemma TemplateFilled(pkg: Package, rt: Runtime, b: Build, t: string, file: TemplateFile, info: TemplateInfo,
                       filled: string)
    requires Find(pkg.templates, TemplateName, t) == Some(file) && Find(pkg.infos, InfoName, t) == Some(info)
    requires rt.render(info.content, KeysOf(b, t)) == Some(filled)
    ensures var c := ParseTemplate(pkg, rt, b, t);
            var value := Values(pkg, rt, b.templates);
            && (c.Done? <==> TemplateResolves(pkg, t))
            && (c.Done? ==>
                  && c.value.args == Written(b.args, TemplateArgs(pkg, t), value)
                  && c.value.envs == Written(b.envs, TemplateEnvs(pkg, t), value)
                  && Carried(c.value.stdin) == LastMounted(Carried(b.stdin), TemplateStd(pkg, t), value)
                  && c.value.templates == b.templates)
  {
    var value := Values(pkg, rt, b.templates);
    ContentsParsed(pkg, b, file.asContent, filled, Content(t), value);
    var c := ParseContents(pkg, b, file.asContent, filled);
    if c.Done? {
      var d := if NamesAFile(file.asFileName)
          then c.value.(files := c.value.files + [InputFile(info.fileName, false, ByContent(filled))]) else c.value;
      NamesParsed(pkg, d, file.asFileName, info.fileName, filled, Name(t), value);
      var e := ParseNames(pkg, d, file.asFileName, info.fileName, filled);
      if e.Done? {
        KeyRefsNone(b.templates, file.asContent, value(Content(t)));
        KeyRefsNone(b.templates, Mounts(file.asFileName), value(Name(t)));
        WrittenConcat(b.args, ArgWrites(pkg, file.asContent, Content(t)),
                      ArgWrites(pkg, Mounts(file.asFileName), Name(t)), value);
        WrittenConcat(b.envs, EnvWrites(pkg, file.asContent, Content(t)),
                      EnvWrites(pkg, Mounts(file.asFileName), Name(t)), value);
        MountedTwice(Carried(b.stdin), StdMounts(file.asContent, Content(t)),
                     StdMounts(Mounts(file.asFileName), Name(t)), value);
      }
    }
  }

  lemma {:induction false} TemplatesParsed(pkg: Package, rt: Runtime, b: Build, order: seq<string>)
    ensures var c := ParseTemplates(pkg, rt, b, order);
            var value := Values(pkg, rt, b.templates);
            && ((forall t :: t in order ==> TemplateResolves(pkg, t)) ==> !c.Panicked?)
            && (c.Done? <==> forall t :: t in order ==> TemplateResolves(pkg, t) && Renders(pkg, rt, b.templates, t))
            && (c.Done? ==>
                  && c.value.args == Written(b.args, Blocks(order, ArgBlock(pkg)), value)
                  && c.value.envs == Written(b.envs, Blocks(order, EnvBlock(pkg)), value)
                  && Carried(c.value.stdin) == LastMounted(Carried(b.stdin), Blocks(order, StdBlock(pkg)), value)
                  && c.value.templates == b.templates)
    decreases |order|
  {
    if order != [] {
      assert order == [order[0]] + order[1..];
      TemplateParsed(pkg, rt, b, order[0]);
      var c := ParseTemplate(pkg, rt, b, order[0]);
      if c.Done? {
        TemplatesParsed(pkg, rt, c.value, order[1..]);
        var value := Values(pkg, rt, b.templates);
        WrittenConcat(b.args, TemplateArgs(pkg, order[0]), Blocks(order[1..], ArgBlock(pkg)), value);
        WrittenConcat(b.envs, TemplateEnvs(pkg, order[0]), Blocks(order[1..], EnvBlock(pkg)), value);
        MountedTwice(Carried(b.stdin), TemplateStd(pkg, order[0]), Blocks(order[1..], StdBlock(pkg)), value);
      }
    }
  }

  // ---------------------------------------------------------------- outputs

  lemma AppointSafe(rt: Runtime, appointed: AppointedBy)
    requires AppointmentFits(rt, appointed)
    ensures !Appoint(rt, appointed).Panicked?
  {
  }

  lemma {:induction false} CollectedSafe(pkg: Package, rt: Runtime, outputs: seq<OutputSlot>, d: string)
    requires var out := FileOutputNamed(outputs, d);
             && out.Some? && out.value.origin.UsecaseOut?
             && Find(pkg.fileOutputs, MaterialName, out.value.origin.material).Some?
             && AppointmentFits(rt, out.value.origin.appointed)
    ensures !CollectedPath(pkg, rt, outputs, d).Panicked?
  {
    if outputs[0].FileOutput? && outputs[0].descriptor == d {
      AppointSafe(rt, outputs[0].origin.appointed);
    } else {
      CollectedSafe(pkg, rt, outputs[1..], d);
    }
  }

  lemma SourceSafe(pkg: Package, rt: Runtime, from: CollectFrom, isText: bool)
    requires SourceResolves(pkg, from, isText) && forall o :: o in pkg.outputs ==> OutputFits(rt, o)
    ensures !ParseSource(pkg, rt, from).Panicked?
  {
    if from.FromFile? { CollectedSafe(pkg, rt, pkg.outputs, from.slot); }
  }

  lemma OutputSafe(pkg: Package, rt: Runtime, b: Build, out: OutputSlot)
    requires OutputResolves(pkg, out) && OutputFits(rt, out) && forall o :: o in pkg.outputs ==> OutputFits(rt, o)
    ensures !ParseOutput(pkg, rt, b, out).Panicked?
  {
    match out
    case TextOutput(_, c, _) => SourceSafe(pkg, rt, Find(pkg.collectors, CollectorName, c).value.from, true);
    case FileOutput(_, CollectedOut(c), _) =>
      SourceSafe(pkg, rt, Find(pkg.collectors, CollectorName, c).value.from, false);
    case FileOutput(_, UsecaseOut(_, appointed), _) => AppointSafe(rt, appointed);
  }

  lemma {:induction false} OutputsSafe(pkg: Package, rt: Runtime, b: Build, outputs: seq<OutputSlot>)
    requires forall o :: o in outputs ==> OutputResolves(pkg, o) && OutputFits(rt, o)
    requires forall o :: o in pkg.outputs ==> OutputFits(rt, o)
    ensures !ParseOutputs(pkg, rt, b, outputs).Panicked?
    decreases |outputs|
  {
    if outputs != [] {
      OutputSafe(pkg, rt, b, outputs[0]);
      var c := ParseOutput(pkg, rt, b, outputs[0]);
      if c.Done? { OutputsSafe(pkg, rt, c.value, outputs[1..]); }
    }
  }

  lemma OutputKeepsTables(pkg: Package, rt: Runtime, b: Build, out: OutputSlot)
    ensures var c := ParseOutput(pkg, rt, b, out);
            c.Done? ==>
              && c.value.args == b.args && c.value.envs == b.envs
              && c.value.templates == b.templates && c.value.stdin == b.stdin
  {
  }

  lemma {:induction false} OutputsKeepTables(pkg: Package, rt: Runtime, b: Build, outputs: seq<OutputSlot>)
    ensures var c := ParseOutputs(pkg, rt, b, outputs);
            c.Done? ==>
              && c.value.args == b.args && c.value.envs == b.envs
              && c.value.templates == b.templates && c.value.stdin == b.stdin
    decreases |outputs|
  {
    if outputs != [] {
      var c := ParseOutput(pkg, rt, b, outputs[0]);
      OutputKeepsTables(pkg, rt, b, outputs[0]);
      if c.Done? { OutputsKeepTables(pkg, rt, c.value, outputs[1..]); }
    }
  }

  /** Two builds that gathered the same fare alike. */
  ghost predicate Alike(b: Build, c: Build, x: Outcome<Build, Refusal>, y: Outcome<Build, Refusal>) {
    (x.Done? <==> y.Done?) && (x.Done? && b.collects == c.collects ==> x.value.collects == y.value.collects)
  }

  /** What an output slot adds does not depend on what was compiled before. */
  lemma TextOutputAlike(pkg: Package, rt: Runtime, b: Build, c: Build, out: OutputSlot)
    requires out.TextOutput?
    ensures Alike(b, c, ParseOutput(pkg, rt, b, out), ParseOutput(pkg, rt, c, out))
  {
  }

  lemma CollectedOutputAlike(pkg: Package, rt: Runtime, b: Build, c: Build, out: OutputSlot)
    requires out.FileOutput? && out.origin.CollectedOut?
    ensures Alike(b, c, ParseOutput(pkg, rt, b, out), ParseOutput(pkg, rt, c, out))
  {
  }

  lemma UsecaseOutputAlike(pkg: Package, rt: Runtime, b: Build, c: Build, out: OutputSlot)
    requires out.FileOutput? && out.origin.UsecaseOut?
    ensures Alike(b, c, ParseOutput(pkg, rt, b, out), ParseOutput(pkg, rt, c, out))
  {
  }

  lemma OutputAlike(pkg: Package, rt: Runtime, b: Build, c: Build, out: OutputSlot)
    ensures Alike(b, c, ParseOutput(pkg, rt, b, out), ParseOutput(pkg, rt, c, out))
  {
    if out.TextOutput? {
      TextOutputAlike(pkg, rt, b, c, out);
    } else if out.origin.CollectedOut? {
      CollectedOutputAlike(pkg, rt, b, c, out);
    } else {
      UsecaseOutputAlike(pkg, rt, b, c, out);
    }
  }

  lemma {:induction false} OutputsAlike(pkg: Package, rt: Runtime, b: Build, c: Build, outputs: seq<OutputSlot>)
    ensures Alike(b, c, ParseOutputs(pkg, rt, b, outputs), ParseOutputs(pkg, rt, c, outputs))
    decreases |outputs|
  {
    if outputs != [] {
      OutputAlike(pkg, rt, b, c, outputs[0]);
      var x, y := ParseOutput(pkg, rt, b, outputs[0]), ParseOutput(pkg, rt, c, outputs[0]);
      if x.Done? { OutputsAlike(pkg, rt, x.value, y.value, outputs[1..]); }
    }
  }

  // ---------------------------------------------------------------- the whole

  lemma {:induction false} FlagArgumentsExact(pkg: Package, b: Build, flags: seq<(string, nat)>)
    ensures var c := FlagArguments(pkg, b, flags);
            && (c.Done? <==> forall f :: f in flags ==> Find(pkg.arguments, ArgumentName, f.0).Some?)
            && (c.Panicked? <==> !c.Done?)
    decreases |flags|
  {
    if flags != [] {
      assert flags == [flags[0]] + flags[1..];
      var a := Find(pkg.arguments, ArgumentName, flags[0].0);
      if a.Some? {
        var sort := flags[0].1;
        FlagArgumentsExact(pkg,
                           if sort in b.args then b
                           else b.(args := b.args[sort := Fill(a.value.valueFormat, map[])]), flags[1..]);
      }
    }
  }

  lemma {:induction false} FlagEnvironmentsExact(pkg: Package, b: Build, flags: seq<string>)
    ensures var c := FlagEnvironments(pkg, b, flags);
            && (c.Done? <==> forall f :: f in flags ==> Find(pkg.environments, EnvironmentName, f).Some?)
            && (c.Panicked? <==> !c.Done?)
    decreases |flags|
  {
    if flags != [] {
      assert flags[0] in flags && flags == [flags[0]] + flags[1..];
      var e := Find(pkg.environments, EnvironmentName, flags[0]);
      if e.Some? {
        var key := e.value.key;
        FlagEnvironmentsExact(pkg,
                              if key in b.envs then b
                              else b.(envs := b.envs[key := Fill(e.value.valueFormat, map[])]), flags[1..]);
      }
    }
  }

  /** Once the flags are entered, a well-formed package compiles on a node that fits it. */
  lemma WellFormedCompiles(pkg: Package, rt: Runtime, order: seq<string>, b: Build)
    requires WellFormed(pkg) && Conforms(pkg, rt) && Enumerates(pkg, order)
    ensures !CompileFrom(pkg, rt, order, b).Panicked?
  {
    SlotsParsed(pkg, rt, b, pkg.slots, map[]);
    var c := ParseSlots(pkg, rt, b, pkg.slots);
    if c.Done? {
      TemplatesParsed(pkg, rt, c.value, order);
      var d := ParseTemplates(pkg, rt, c.value, order);
      if d.Done? { OutputsSafe(pkg, rt, d.value, pkg.outputs); }
    }
  }

  /** On a node that fits it, an accepted package makes the compiler panic exactly when one of its flags
      names no material, the one thing validation does not look at, in whatever orders the two iterate
      their tables. Otherwise the compiler may only return an error, for a text that is not stored, a
      template that does not render or an output of the wrong kind. */
  lemma PanicsExactlyOnFlags(pkg: Package, rt: Runtime, checkedIn: seq<string>, compiledIn: seq<string>)
    requires Enumerates(pkg, checkedIn) && Enumerates(pkg, compiledIn)
    requires Validate(pkg, checkedIn).Done? && Conforms(pkg, rt)
    ensures ParseTask(pkg, rt, compiledIn).Panicked? <==> !FlagsResolve(pkg)
  {
    ValidateAccepts(pkg, checkedIn);
    FlagsExact(pkg);
    var b := EnteredFlags(pkg);
    if b.Done? { WellFormedCompiles(pkg, rt, compiledIn, b.value); }
    TaskPanics(pkg, rt, compiledIn);
  }

  lemma FlagsExact(pkg: Package)
    ensures EnteredFlags(pkg).Done? <==> FlagsResolve(pkg)
    ensures EnteredFlags(pkg).Panicked? <==> !FlagsResolve(pkg)
  {
    FlagArgumentsExact(pkg, NOTHING, pkg.flagArguments);
    var a := FlagArguments(pkg, NOTHING, pkg.flagArguments);
    if a.Done? { FlagEnvironmentsExact(pkg, a.value, pkg.flagEnvironments); }
  }

  lemma TaskPanics(pkg: Package, rt: Runtime, order: seq<string>)
    ensures var b := EnteredFlags(pkg);
            ParseTask(pkg, rt, order).Panicked? <==>
            b.Panicked? || (b.Done? && CompileFrom(pkg, rt, order, b.value).Panicked?)
  {
  }

  /** A package that asks for nothing but a flag that names no material. */
  const FLAGGED := Package([], [], [], [], [], [], [], [], [], [("missing", 0)], [])

  /** It is accepted, fits every node, and makes the compiler panic. */
  lemma FlaggedPanics(rt: Runtime)
    ensures Enumerates(FLAGGED, []) && Validate(FLAGGED, []).Done? && Conforms(FLAGGED, rt)
    ensures ParseTask(FLAGGED, rt, []).Panicked?
  {
    assert AllArgs(FLAGGED, []) == [];
    assert SortsUpTo(AllArgs(FLAGGED, []), 0);
    ValidateAccepts(FLAGGED, []);
    assert FLAGGED.flagArguments[0] in FLAGGED.flagArguments && !FlagsResolve(FLAGGED);
    PanicsExactlyOnFlags(FLAGGED, rt, [], []);
  }
}
