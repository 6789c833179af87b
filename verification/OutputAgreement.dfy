/** The outputs of the preview and of the task: the same collections and the same output files. */
module OutputAgreement {
  import opened Basics
  import opened FormatTables
  import opened PackageModel
  import opened PackageValidate
  import opened SoftwareComputing
  import opened TaskContents
  import opened TaskResult
  import opened PreviewContents

  // ---------------------------------------------------------------- one element per output

  /** The outputs that are collected. */
  function Collected(pkg: Package, outputs: seq<OutputSlot>): (some: seq<OutputSlot>)
    ensures forall o :: o in some ==> o in outputs && CollectorOf(pkg, o).Some?
  {
    if outputs == [] then []
    else (if CollectorOf(pkg, outputs[0]).Some? then [outputs[0]] else []) + Collected(pkg, outputs[1..])
  }

  /** The output files the use case writes itself. */
  function Written(outputs: seq<OutputSlot>): (some: seq<OutputSlot>)
    ensures forall o :: o in some ==> o in outputs && o.FileOutput? && o.origin.UsecaseOut?
  {
    if outputs == [] then []
    else
      (if outputs[0].FileOutput? && outputs[0].origin.UsecaseOut? then [outputs[0]] else []) + Written(outputs[1..])
  }

  // ---------------------------------------------------------------- what they share

  /** The file a collector reads: in the preview the material of the first File output slot of that name, in
      the task the text that slot's appointment names, or else the path of that material. */
  ghost predicate SameFile(pkg: Package, rt: Runtime, slot: string, material: string, path: string) {
    var read := FileOutputNamed(pkg.outputs, slot);
    if read.None? || !read.value.origin.UsecaseOut? then material == "" && path == ""
    else
      && material == read.value.origin.material
      && path == match read.value.origin.appointed
                 case BySlot(d) => AppointedText(rt, d)
                 case ByMaterial => MaterialPath(pkg.fileOutputs, material)
  }

  ghost predicate SameFrom(pkg: Package, rt: Runtime, from: CollectFrom, p: PreviewFrom, t: TaskFrom) {
    match from
    case FromFile(d) => p.PreviewFile? && t.TaskFile? && SameFile(pkg, rt, d, p.material, t.path)
    case FromStdout => p.PreviewStdout? && t.TaskStdout?
    case FromStderr => p.PreviewStderr? && t.TaskStderr?
  }

  /** The collection of an output in the preview and in the task, which sends what is found to the id
      prepared for the node's output slot of that name. */
  ghost predicate SameCollect(pkg: Package, rt: Runtime, out: OutputSlot, p: CollectPreview, t: Collect)
    requires CollectorOf(pkg, out).Some?
  {
    var c := CollectorOf(pkg, out).value;
    && SameFrom(pkg, rt, c.from, p.from, t.from)
    && p.rule == t.rule == c.rule && p.optional == t.optional == out.optional
    && match c.to
       case ToFile(file) =>
         p.to == PreviewToFile(file.path) && t.to == TaskToFile(file.path, OutputId(rt, out.descriptor))
       case ToText => p.to == PreviewToText && t.to == TaskToText(OutputId(rt, out.descriptor))
  }

  /** An output file of the preview and of the task. */
  ghost predicate SameOutput(pkg: Package, rt: Runtime, out: OutputSlot, p: FilePreview, t: FileInfo)
    requires out.FileOutput? && out.origin.UsecaseOut?
  {
    var m := Find(pkg.fileOutputs, MaterialName, out.origin.material);
    && t.OutputFile? && t.id == OutputId(rt, out.descriptor) && t.optional == out.optional
    && (t.isPackage <==> m.Some? && m.value.kind.Batched?)
    && match out.origin.appointed
       case BySlot(d) => p == DynamicOutput(FromSlot(d), out.origin.material) && t.path == AppointedText(rt, d)
       case ByMaterial =>
         p.ConstOutput? && p.material == out.origin.material && p.path == t.path &&
         t.path == MaterialPath(pkg.fileOutputs, out.origin.material)
  }

  ghost predicate SameCollects(pkg: Package, rt: Runtime, some: seq<OutputSlot>, p: seq<CollectPreview>,
                               t: seq<Collect>)
    requires forall o :: o in some ==> CollectorOf(pkg, o).Some?
  {
    |p| == |t| == |some| && forall i :: 0 <= i < |some| ==> SameCollect(pkg, rt, some[i], p[i], t[i])
  }

  ghost predicate SameOutputs(pkg: Package, rt: Runtime, some: seq<OutputSlot>, p: seq<FilePreview>, t: seq<FileInfo>)
    requires forall o :: o in some ==> o.FileOutput? && o.origin.UsecaseOut?
  {
    |p| == |t| == |some| && forall i :: 0 <= i < |some| ==> SameOutput(pkg, rt, some[i], p[i], t[i])
  }

  lemma OneCollect(pkg: Package, rt: Runtime, out: OutputSlot)
    requires CollectorOf(pkg, out).Some?
    ensures var p, t := CollectPreviews(pkg)(out), CollectsOfOutput(pkg, rt)(out);
            |p| == |t| == 1 && SameCollect(pkg, rt, out, p[0], t[0])
  {
  }

  lemma {:induction false} CollectsInOrder(pkg: Package, rt: Runtime, outputs: seq<OutputSlot>)
    ensures SameCollects(pkg, rt, Collected(pkg, outputs), FlatMap(outputs, CollectPreviews(pkg)),
                         FlatMap(outputs, CollectsOfOutput(pkg, rt)))
  {
    if outputs != [] {
      CollectsInOrder(pkg, rt, outputs[1..]);
      if CollectorOf(pkg, outputs[0]).Some? { OneCollect(pkg, rt, outputs[0]); }
    }
  }

  lemma OneOutput(pkg: Package, rt: Runtime, out: OutputSlot)
    requires out.FileOutput? && out.origin.UsecaseOut?
    ensures var p, t := OutputPreviews(pkg)(out), FilesOfOutput(pkg, rt)(out);
            |p| == |t| == 1 && SameOutput(pkg, rt, out, p[0], t[0])
  {
  }

  lemma {:induction false} FilesInOrder(pkg: Package, rt: Runtime, outputs: seq<OutputSlot>)
    ensures SameOutputs(pkg, rt, Written(outputs), FlatMap(outputs, OutputPreviews(pkg)),
                        FlatMap(outputs, FilesOfOutput(pkg, rt)))
  {
    if outputs != [] {
      FilesInOrder(pkg, rt, outputs[1..]);
      if outputs[0].FileOutput? && outputs[0].origin.UsecaseOut? { OneOutput(pkg, rt, outputs[0]); }
    }
  }

  /** The last elements of a list. */
  function Last<T>(xs: seq<T>, n: nat): seq<T> {
    if n <= |xs| then xs[|xs| - n..] else xs
  }

  lemma LastIs<T>(front: seq<T>, back: seq<T>)
    ensures Last(front + back, |back|) == back
  {
  }

  /** The outputs a use case declares become, one for one and in order, the same collections and the same
      output files in the preview and in the task: the collections of both, and the last files of both. */
  lemma OutputsAgree(pkg: Package, rt: Runtime, checkedIn: seq<string>, compiledIn: seq<string>)
    requires Validate(pkg, checkedIn).Done? && ParseTask(pkg, rt, compiledIn).Done?
    ensures var p, task := Validate(pkg, checkedIn).value, ParseTask(pkg, rt, compiledIn).value;
            SameCollects(pkg, rt, Collected(pkg, pkg.outputs), p.collects, task.collects)
    ensures var p, task := Validate(pkg, checkedIn).value, ParseTask(pkg, rt, compiledIn).value;
            var some := Written(pkg.outputs);
            SameOutputs(pkg, rt, some, Last(p.files, |some|), Last(task.files, |some|))
  {
    PreviewHolds(pkg, checkedIn);
    TaskHolds(pkg, rt, compiledIn);
    CollectsInOrder(pkg, rt, pkg.outputs);
    FilesInOrder(pkg, rt, pkg.outputs);
    LastIs(FlatMap(pkg.slots, SlotPreviews(pkg)) + FlatMap(checkedIn, TemplatePreviews(pkg)),
           FlatMap(pkg.outputs, OutputPreviews(pkg)));
    LastIs(FlatMap(pkg.slots, FilesOfSlot(rt)) + FlatMap(compiledIn, FilesOfTemplate(pkg, rt, SlotKeys(pkg, rt))),
           FlatMap(pkg.outputs, FilesOfOutput(pkg, rt)));
  }
}
