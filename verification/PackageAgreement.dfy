/** The preview and the task say the same: both are readings of the same references. */
module PackageAgreement {
  import opened Basics
  import opened FormatTables
  import opened PackageModel
  import opened PackageValidate
  import opened SoftwareComputing
  import opened PackageSafety
  import opened Placeholder

  // ---------------------------------------------------------------- the table of templates

  lemma {:induction false} PutKeysIs<V>(table: map<string, map<string, V>>, t: string, keys: seq<string>, v: V)
    ensures var r := PutKeys(table, t, keys, v);
            && (forall u :: u in r <==> u in table || (u == t && keys != []))
            && (forall u :: u in table && u != t ==> r[u] == table[u])
            && (t in r ==> forall k :: k in r[t] <==> k in keys || (t in table && k in table[t]))
            && (t in r ==> forall k :: k in r[t] ==> r[t][k] == if k in keys then v else table[t][k])
    decreases |keys|
  {
    if keys != [] {
      assert keys == [keys[0]] + keys[1..];
      var inner := if t in table then table[t] else map[];
      PutKeysIs(table[t := inner[keys[0] := v]], t, keys[1..], v);
    }
  }

  /** Two tables with the same templates and keys, the values of the second read off the first. */
  ghost predicate Mirrors<V>(p: map<string, map<string, InDescriptor>>, b: map<string, map<string, V>>,
                             value: Source -> V) {
    && (forall t :: t in p <==> t in b)
    && forall t :: t in p ==> MirrorsKeys(p[t], b[t], value)
  }

  ghost predicate MirrorsKeys<V>(p: map<string, InDescriptor>, b: map<string, V>, value: Source -> V) {
    && (forall k :: k in p <==> k in b)
    && forall k :: k in p ==> p[k].FromSlot? && b[k] == value(Slot(p[k].descriptor))
  }

  lemma PutMirrors<V>(p: map<string, map<string, InDescriptor>>, b: map<string, map<string, V>>, value: Source -> V,
                      t: string, keys: seq<string>, d: string)
    requires Mirrors(p, b, value)
    ensures Mirrors(PutKeys(p, t, keys, FromSlot(d)), PutKeys(b, t, keys, value(Slot(d))), value)
  {
    PutKeysIs(p, t, keys, FromSlot(d));
    PutKeysIs(b, t, keys, value(Slot(d)));
    var p', b' := PutKeys(p, t, keys, FromSlot(d)), PutKeys(b, t, keys, value(Slot(d)));
    forall u | u in p' ensures MirrorsKeys(p'[u], b'[u], value) {
      assert u in p ==> MirrorsKeys(p[u], b[u], value);
    }
  }

  lemma {:induction false} RefsMirror<V>(p: map<string, map<string, InDescriptor>>, b: map<string, map<string, V>>,
                                         value: Source -> V, refs: seq<Ref>, d: string)
    requires Mirrors(p, b, value)
    ensures Mirrors(KeyRefs(p, refs, FromSlot(d)), KeyRefs(b, refs, value(Slot(d))), value)
    decreases |refs|
  {
    if refs != [] {
      var r := refs[0];
      if r.TemplateRef? {
        PutMirrors(p, b, value, r.descriptor, r.keys, d);
        RefsMirror(PutKeys(p, r.descriptor, r.keys, FromSlot(d)), PutKeys(b, r.descriptor, r.keys, value(Slot(d))),
                   value, refs[1..], d);
      } else {
        RefsMirror(p, b, value, refs[1..], d);
      }
    }
  }

  lemma {:induction false} SlotsMirror<V>(p: map<string, map<string, InDescriptor>>, b: map<string, map<string, V>>,
                                          value: Source -> V, slots: seq<InputSlot>)
    requires Mirrors(p, b, value)
    ensures Mirrors(KeySlots(p, slots, Described()), KeySlots(b, slots, value), value)
    decreases |slots|
  {
    if slots != [] {
      var d := slots[0].descriptor;
      RefsMirror(p, b, value, RefsOf(slots[0]), d);
      SlotsMirror(KeyRefs(p, RefsOf(slots[0]), FromSlot(d)), KeyRefs(b, RefsOf(slots[0]), value(Slot(d))), value,
                  slots[1..]);
    }
  }

  lemma {:induction false} RefsFill<V>(table: map<string, map<string, V>>, refs: seq<Ref>, v: V, t: string)
    ensures t in KeyRefs(table, refs, v) <==> t in table || FillsAmong(refs, t)
    decreases |refs|
  {
    if refs != [] {
      var r := refs[0];
      assert refs == [r] + refs[1..];
      var next := if r.TemplateRef? then PutKeys(table, r.descriptor, r.keys, v) else table;
      if r.TemplateRef? { PutKeysIs(table, r.descriptor, r.keys, v); }
      RefsFill(next, refs[1..], v, t);
      assert FillsAmong(refs, t) <==> FillsAmong(refs[1..], t) || (r.TemplateRef? && r.descriptor == t && r.keys != []);
    }
  }

  lemma {:induction false} SlotsFill<V>(table: map<string, map<string, V>>, slots: seq<InputSlot>, value: Source -> V,
                                        t: string)
    ensures t in KeySlots(table, slots, value) <==> t in table || exists s :: s in slots && FillsTemplate(s, t)
    decreases |slots|
  {
    if slots != [] {
      assert slots == [slots[0]] + slots[1..];
      RefsFill(table, RefsOf(slots[0]), value(Slot(slots[0].descriptor)), t);
      SlotsFill(KeyRefs(table, RefsOf(slots[0]), value(Slot(slots[0].descriptor))), slots[1..], value, t);
      if FillsTemplate(slots[0], t) { assert slots[0] in slots; }
    }
  }

  /** The table a compiler iterates has exactly the used templates for keys. */
  lemma TableOfUsed<V>(pkg: Package, value: Source -> V, t: string)
    ensures t in KeySlots<V>(map[], pkg.slots, value) <==> Used(pkg, t)
  {
    SlotsFill<V>(map[], pkg.slots, value, t);
  }

  function KeyIn<V>(table: map<string, map<string, V>>, t: string, key: string): Option<V> {
    if t in table && key in table[t] then Some(table[t][key]) else None
  }

  predicate FillsKeyAmong(refs: seq<Ref>, t: string, key: string) {
    exists r :: r in refs && r.TemplateRef? && r.descriptor == t && key in r.keys
  }

  /** A slot that fills that key of that template. */
  predicate FillsKey(slot: InputSlot, t: string, key: string) {
    FillsKeyAmong(RefsOf(slot), t, key)
  }

  lemma {:induction false} RefsFillKey<V>(table: map<string, map<string, V>>, refs: seq<Ref>, v: V, t: string,
                                          key: string)
    ensures KeyIn(KeyRefs(table, refs, v), t, key) ==
            if FillsKeyAmong(refs, t, key) then Some(v) else KeyIn(table, t, key)
    decreases |refs|
  {
    if refs != [] {
      var r := refs[0];
      assert refs == [r] + refs[1..];
      var next := if r.TemplateRef? then PutKeys(table, r.descriptor, r.keys, v) else table;
      if r.TemplateRef? { PutKeysIs(table, r.descriptor, r.keys, v); }
      RefsFillKey(next, refs[1..], v, t, key);
      assert FillsKeyAmong(refs, t, key) <==>
             FillsKeyAmong(refs[1..], t, key) || (r.TemplateRef? && r.descriptor == t && key in r.keys);
    }
  }

  lemma {:induction false} SlotsLeaveKey<V>(table: map<string, map<string, V>>, slots: seq<InputSlot>,
                                            value: Source -> V, t: string, key: string)
    requires forall s :: s in slots ==> !FillsKey(s, t, key)
    ensures KeyIn(KeySlots(table, slots, value), t, key) == KeyIn(table, t, key)
    decreases |slots|
  {
    if slots != [] {
      var v := value(Slot(slots[0].descriptor));
      assert !FillsKey(slots[0], t, key);
      RefsFillKey(table, RefsOf(slots[0]), v, t, key);
      SlotsLeaveKey(KeyRefs(table, RefsOf(slots[0]), v), slots[1..], value, t, key);
    }
  }

  lemma {:induction false} SlotsFillKey<V>(table: map<string, map<string, V>>, slots: seq<InputSlot>,
                                           value: Source -> V, t: string, key: string, i: nat)
    requires i < |slots| && FillsKey(slots[i], t, key) && forall s :: s in slots[i + 1..] ==> !FillsKey(s, t, key)
    ensures KeyIn(KeySlots(table, slots, value), t, key) == Some(value(Slot(slots[i].descriptor)))
    decreases |slots|
  {
    var v := value(Slot(slots[0].descriptor));
    var next := KeyRefs(table, RefsOf(slots[0]), v);
    RefsFillKey(table, RefsOf(slots[0]), v, t, key);
    if i == 0 {
      SlotsLeaveKey(next, slots[1..], value, t, key);
    } else {
      assert slots[1..][i - 1] == slots[i] && slots[1..][i..] == slots[i + 1..];
      SlotsFillKey(next, slots[1..], value, t, key, i - 1);
    }
  }

  /** A key of a template is filled by the last slot that names it, and by nothing if none does. */
  lemma KeyFilledBy<V>(pkg: Package, value: Source -> V, t: string, key: string, i: nat)
    ensures (forall s :: s in pkg.slots ==> !FillsKey(s, t, key)) ==>
              KeyIn(KeySlots<V>(map[], pkg.slots, value), t, key) == None
    ensures i < |pkg.slots| && FillsKey(pkg.slots[i], t, key)
            && (forall s :: s in pkg.slots[i + 1..] ==> !FillsKey(s, t, key)) ==>
              KeyIn(KeySlots<V>(map[], pkg.slots, value), t, key) == Some(value(Slot(pkg.slots[i].descriptor)))
  {
    if forall s :: s in pkg.slots ==> !FillsKey(s, t, key) {
      SlotsLeaveKey<V>(map[], pkg.slots, value, t, key);
    }
    if i < |pkg.slots| && FillsKey(pkg.slots[i], t, key)
      && (forall s :: s in pkg.slots[i + 1..] ==> !FillsKey(s, t, key)) {
      SlotsFillKey<V>(map[], pkg.slots, value, t, key, i);
    }
  }

  // ---------------------------------------------------------------- flags

  function FlagSort(flag: (string, nat)): nat { flag.1 }

  /** The format a flag gives to an argument: that of the first flag of its sort. */
  function FlaggedArgument(pkg: Package, flags: seq<(string, nat)>, sort: nat): Option<string> {
    var flag := Find(flags, FlagSort, sort);
    if flag.Some? then Some(ArgumentFormat(pkg, flag.value.0)) else None
  }

  /** And to an environment: that of the first flag whose environment has the key. */
  function FlaggedEnvironment(pkg: Package, flags: seq<string>, key: string): Option<string> {
    if flags == [] then None
    else
      var e := EnvironmentOf(pkg, flags[0]);
      if e.key == key then Some(e.valueFormat) else FlaggedEnvironment(pkg, flags[1..], key)
  }

  lemma {:induction false} FlagArgumentsEntered(pkg: Package, b: Build, flags: seq<(string, nat)>)
    requires FlagArguments(pkg, b, flags).Done? && Bare(b.args)
    ensures var c := FlagArguments(pkg, b, flags).value;
            && c == b.(args := c.args) && Bare(c.args)
            && forall k ::
                 FormatIn(c.args, k) == if k in b.args then FormatIn(b.args, k) else FlaggedArgument(pkg, flags, k)
    decreases |flags|
  {
    if flags != [] {
      var a := Find(pkg.arguments, ArgumentName, flags[0].0).value;
      var sort := flags[0].1;
      FlagArgumentsEntered(pkg, if sort in b.args then b else b.(args := b.args[sort := Fill(a.valueFormat, map[])]),
                           flags[1..]);
    }
  }

  /** The tables once one environment flag is entered. */
  function WithFlag(b: Build, e: Environment): Build {
    if e.key in b.envs then b else b.(envs := b.envs[e.key := Fill(e.valueFormat, map[])])
  }

  lemma FlagEnvironmentsNext(pkg: Package, b: Build, flags: seq<string>)
    requires flags != [] && FlagEnvironments(pkg, b, flags).Done?
    ensures FlagEnvironments(pkg, b, flags) ==
            FlagEnvironments(pkg, WithFlag(b, EnvironmentOf(pkg, flags[0])), flags[1..])
  {
  }

  lemma {:induction false} FlagEnvironmentsEntered(pkg: Package, b: Build, flags: seq<string>)
    requires FlagEnvironments(pkg, b, flags).Done? && Bare(b.envs)
    ensures var c := FlagEnvironments(pkg, b, flags).value;
            c == b.(envs := c.envs) && Bare(c.envs)
    decreases |flags|
  {
    if flags != [] {
      FlagEnvironmentsNext(pkg, b, flags);
      FlagEnvironmentsEntered(pkg, WithFlag(b, EnvironmentOf(pkg, flags[0])), flags[1..]);
    }
  }

  lemma {:induction false} FlagEnvironmentAt(pkg: Package, b: Build, flags: seq<string>, k: string)
    requires FlagEnvironments(pkg, b, flags).Done?
    ensures FormatIn(FlagEnvironments(pkg, b, flags).value.envs, k) ==
            if k in b.envs then FormatIn(b.envs, k) else FlaggedEnvironment(pkg, flags, k)
    decreases |flags|
  {
    if flags != [] {
      FlagEnvironmentsNext(pkg, b, flags);
      FlagEnvironmentAt(pkg, WithFlag(b, EnvironmentOf(pkg, flags[0])), flags[1..], k);
    }
  }

  function ArgumentFlags(pkg: Package): nat -> Option<string> {
    (k: nat) => FlaggedArgument(pkg, pkg.flagArguments, k)
  }

  function EnvironmentFlags(pkg: Package): string -> Option<string> {
    k => FlaggedEnvironment(pkg, pkg.flagEnvironments, k)
  }

  /** The tables the flags leave: formats and nothing that fills them. */
  lemma FlagsEntered(pkg: Package)
    requires EnteredFlags(pkg).Done?
    ensures var b := EnteredFlags(pkg).value;
            && b == NOTHING.(args := b.args, envs := b.envs) && Bare(b.args) && Bare(b.envs)
            && (forall k :: FormatIn(b.args, k) == ArgumentFlags(pkg)(k))
            && forall k :: FormatIn(b.envs, k) == EnvironmentFlags(pkg)(k)
  {
    FlagArgumentsEntered(pkg, NOTHING, pkg.flagArguments);
    var a := FlagArguments(pkg, NOTHING, pkg.flagArguments).value;
    FlagEnvironmentsEntered(pkg, a, pkg.flagEnvironments);
    forall k
      ensures FormatIn(FlagEnvironments(pkg, a, pkg.flagEnvironments).value.envs, k) == EnvironmentFlags(pkg)(k)
    {
      FlagEnvironmentAt(pkg, a, pkg.flagEnvironments, k);
    }
  }

  // ---------------------------------------------------------------- the compiled tables

  lemma CompiledTables(pkg: Package, rt: Runtime, order: seq<string>)
    requires Compile(pkg, rt, order).Done?
    ensures var flags := EnteredFlags(pkg).value;
            var b := Compile(pkg, rt, order).value;
            var value := Values(pkg, rt, b.templates);
            && b.args == Written(flags.args, AllArgs(pkg, order), value)
            && b.envs == Written(flags.envs, AllEnvs(pkg, order), value)
            && b.templates == KeySlots(map[], pkg.slots, value)
            && Carried(b.stdin) == LastMounted(None, AllStd(pkg, order), value)
  {
    FlagsEntered(pkg);
    var flags := EnteredFlags(pkg).value;
    var c := ParseSlots(pkg, rt, flags, pkg.slots).value;
    SlotsParsed(pkg, rt, flags, pkg.slots, c.templates);
    TemplatesParsed(pkg, rt, c, order);
    var d := ParseTemplates(pkg, rt, c, order).value;
    OutputsKeepTables(pkg, rt, d, pkg.outputs);
    var value := Values(pkg, rt, c.templates);
    WrittenConcat(flags.args, SlotArgs(pkg, pkg.slots), Blocks(order, ArgBlock(pkg)), value);
    WrittenConcat(flags.envs, SlotEnvs(pkg, pkg.slots), Blocks(order, EnvBlock(pkg)), value);
    MountedTwice(None, SlotStd(pkg.slots), Blocks(order, StdBlock(pkg)), value);
  }

  // ---------------------------------------------------------------- agreement

  /** References that cannot disagree: different templates fill different placeholders, at most one
      template goes to standard input, and references to one key give it one format. */
  ghost predicate Settled(pkg: Package, order: seq<string>) {
    && Disjoint(order, ArgBlock(pkg)) && OneFormat(AllArgs(pkg, order))
    && Disjoint(order, EnvBlock(pkg)) && OneFormat(AllEnvs(pkg, order))
    && Disjoint(order, StdBlock(pkg))
  }

  /** A placeholder of the preview and what fills it in the task: `s` is the source of the last reference
      to it, the preview names its slot or template, and the task holds its run-time value. */
  ghost predicate SameFilling(s: Option<Source>, named: Option<InDescriptor>, filled: Option<Option<string>>,
                              value: Source -> Option<string>) {
    if s.Some? then named == Some(Describe(s.value)) && filled == Some(value(s.value))
    else named == None && filled == None
  }

  /** A table of the preview and the table of the task: the entries and formats are the same but for those
      a flag brings, and so is where every placeholder is filled from. */
  ghost predicate SameTable<K(!new)>(writes: seq<Write<K>>, flags: K -> Option<string>,
                                     named: map<K, Fill<InDescriptor>>,
                                     filled: map<K, Fill<Option<string>>>, value: Source -> Option<string>) {
    && (forall k :: FormatIn(filled, k) == if flags(k).Some? then flags(k) else FormatIn(named, k))
    && forall k, nth: nat ::
       SameFilling(LastSource(writes, k, nth), FillIn(named, k, nth), FillIn(filled, k, nth), value)
  }

  /** Standard input: nothing mounted, or what was mounted last. */
  ghost predicate SameStdin(s: Option<Source>, named: InDescriptor, carried: Option<string>,
                            value: Source -> Option<string>) {
    if s.Some? then named == Describe(s.value) && carried == value(s.value) else named == Nowhere && carried == None
  }

  lemma TablesAgree<K(!new)>(flags: map<K, Fill<Option<string>>>, base: seq<Write<K>>, a: seq<string>, b: seq<string>,
                             block: string -> seq<Write<K>>, flagged: K -> Option<string>,
                             value: Source -> Option<string>)
    requires SameTemplates(a, b) && Disjoint(a, block) && OneFormat(base + Blocks(a, block))
    requires Bare(flags) && forall k :: FormatIn(flags, k) == flagged(k)
    ensures SameTable(base + Blocks(a, block), flagged,
                      Written(map[], base + Blocks(a, block), Described()),
                      Written(flags, base + Blocks(b, block), value), value)
  {
    var x := Written<K, InDescriptor>(map[], base + Blocks(a, block), Described());
    var y := Written<K, Option<string>>(flags, base + Blocks(b, block), value);
    forall k, nth: nat
      ensures FormatIn(y, k) == if flagged(k).Some? then flagged(k) else FormatIn(x, k)
      ensures SameFilling(LastSource(base + Blocks(a, block), k, nth), FillIn(x, k, nth), FillIn(y, k, nth), value)
    {
      SameTables(map[], flags, base, a, b, block, Described(), value, k, nth);
      assert FormatIn(flags, k) == flagged(k);
    }
    forall k ensures FormatIn(y, k) == if flagged(k).Some? then flagged(k) else FormatIn(x, k) {
      SameTables(map[], flags, base, a, b, block, Described(), value, k, 0);
      assert FormatIn(flags, k) == flagged(k);
    }
  }

  /** Preview and task agree, in whatever orders the two iterate the used templates. They have the same
      arguments and environments, with the same formats, but for those the flags bring, which the preview
      does not list. Each placeholder is filled in the task with the run-time value of the source of its
      last reference, whose slot or template the preview names. The templates are filled under the same
      keys, with the values of the slots the preview names, and standard input carries what was mounted
      there last, which the preview names. */
  lemma PreviewAndTaskAgree(pkg: Package, rt: Runtime, checkedIn: seq<string>, compiledIn: seq<string>)
    requires Enumerates(pkg, checkedIn) && Enumerates(pkg, compiledIn) && Settled(pkg, checkedIn)
    requires Validate(pkg, checkedIn).Done? && Compile(pkg, rt, compiledIn).Done?
    ensures var p := Validate(pkg, checkedIn).value;
            var b := Compile(pkg, rt, compiledIn).value;
            var value := Values(pkg, rt, b.templates);
            && SameTable(AllArgs(pkg, checkedIn), ArgumentFlags(pkg), p.args, b.args, value)
            && SameTable(AllEnvs(pkg, checkedIn), EnvironmentFlags(pkg), p.envs, b.envs, value)
            && Mirrors(p.templates, b.templates, value)
            && SameStdin(LastSource(AllStd(pkg, checkedIn), 0, 0), p.stdin, Carried(b.stdin), value)
  {
    ValidateAccepts(pkg, checkedIn);
    CompiledTables(pkg, rt, compiledIn);
    FlagsEntered(pkg);
    var flags := EnteredFlags(pkg).value;
    var value := Values(pkg, rt, Compile(pkg, rt, compiledIn).value.templates);
    TablesAgree(flags.args, SlotArgs(pkg, pkg.slots), checkedIn, compiledIn, ArgBlock(pkg), ArgumentFlags(pkg), value);
    TablesAgree(flags.envs, SlotEnvs(pkg, pkg.slots), checkedIn, compiledIn, EnvBlock(pkg),
                EnvironmentFlags(pkg), value);
    SlotsMirror<Option<string>>(map[], map[], value, pkg.slots);
    SameLast(SlotStd(pkg.slots), checkedIn, compiledIn, StdBlock(pkg), 0, 0);
  }

  function FlagSorts(pkg: Package): set<nat> {
    set f | f in pkg.flagArguments :: FlagSort(f)
  }

  lemma FlaggedIs(pkg: Package, k: nat)
    ensures k in FlagSorts(pkg) <==> ArgumentFlags(pkg)(k).Some?
  {
    var flag := Find(pkg.flagArguments, FlagSort, k);
    if flag.Some? { assert FlagSort(flag.value) in FlagSorts(pkg); }
  }

  /** The format of a sort: the flag's, or else the preview's. */
  lemma FormatOfSort(pkg: Package, rt: Runtime, checkedIn: seq<string>, compiledIn: seq<string>, k: nat)
    requires Enumerates(pkg, checkedIn) && Enumerates(pkg, compiledIn) && Settled(pkg, checkedIn)
    requires Validate(pkg, checkedIn).Done? && Compile(pkg, rt, compiledIn).Done?
    ensures FormatIn(Compile(pkg, rt, compiledIn).value.args, k) ==
            if k in FlagSorts(pkg) then ArgumentFlags(pkg)(k) else FormatIn(Validate(pkg, checkedIn).value.args, k)
  {
    PreviewAndTaskAgree(pkg, rt, checkedIn, compiledIn);
    FlaggedIs(pkg, k);
  }

  lemma CompiledSorts(pkg: Package, rt: Runtime, checkedIn: seq<string>, compiledIn: seq<string>)
    requires Enumerates(pkg, checkedIn) && Enumerates(pkg, compiledIn) && Settled(pkg, checkedIn)
    requires Validate(pkg, checkedIn).Done? && Compile(pkg, rt, compiledIn).Done?
    ensures Compile(pkg, rt, compiledIn).value.args.Keys == Validate(pkg, checkedIn).value.args.Keys + FlagSorts(pkg)
  {
    var p := Validate(pkg, checkedIn).value;
    var b := Compile(pkg, rt, compiledIn).value;
    forall k: nat ensures k in b.args <==> k in p.args || k in FlagSorts(pkg) {
      FormatOfSort(pkg, rt, checkedIn, compiledIn, k);
      FlaggedIs(pkg, k);
    }
  }

  /** The task has exactly one argument per entry of the preview or flag, in the order of the sorts; each
      is its format filled, the format that of the flag or else of the preview. Without flags argument `i`
      is the preview's entry `i`. */
  lemma OneArgumentPerEntry(pkg: Package, rt: Runtime, checkedIn: seq<string>, compiledIn: seq<string>)
    requires Enumerates(pkg, checkedIn) && Enumerates(pkg, compiledIn) && Settled(pkg, checkedIn)
    requires Validate(pkg, checkedIn).Done? && ParseTask(pkg, rt, compiledIn).Done?
    ensures var p := Validate(pkg, checkedIn).value;
            var b := Compile(pkg, rt, compiledIn).value;
            var task := ParseTask(pkg, rt, compiledIn).value;
            var sorts := Ascending(p.args.Keys + FlagSorts(pkg));
            && |task.arguments| == |sorts|
            && (forall i :: 0 <= i < |sorts| ==>
                  var k := sorts[i];
                  && k in b.args && task.arguments[i] == Filled(b.args[k].format, b.args[k].fills)
                  && Some(b.args[k].format) ==
                     if k in FlagSorts(pkg) then ArgumentFlags(pkg)(k) else FormatIn(p.args, k))
            && (pkg.flagArguments == [] ==> |sorts| == |p.args| && forall i :: 0 <= i < |sorts| ==> sorts[i] == i)
  {
    CompiledSorts(pkg, rt, checkedIn, compiledIn);
    var p := Validate(pkg, checkedIn).value;
    var b := Compile(pkg, rt, compiledIn).value;
    var sorts := Ascending(b.args.Keys);
    forall i | 0 <= i < |sorts|
      ensures var k := sorts[i];
              k in b.args && Some(b.args[k].format) ==
                if k in FlagSorts(pkg) then ArgumentFlags(pkg)(k) else FormatIn(p.args, k)
    {
      assert sorts[i] in sorts;
      FormatOfSort(pkg, rt, checkedIn, compiledIn, sorts[i]);
    }
    if pkg.flagArguments == [] { SortsWithoutFlags(pkg, checkedIn); }
  }

  /** And exactly one environment per entry or flag, its format filled. */
  lemma OneEnvironmentPerEntry(pkg: Package, rt: Runtime, checkedIn: seq<string>, compiledIn: seq<string>, k: string)
    requires Enumerates(pkg, checkedIn) && Enumerates(pkg, compiledIn) && Settled(pkg, checkedIn)
    requires Validate(pkg, checkedIn).Done? && ParseTask(pkg, rt, compiledIn).Done?
    ensures var p := Validate(pkg, checkedIn).value;
            var b := Compile(pkg, rt, compiledIn).value;
            var task := ParseTask(pkg, rt, compiledIn).value;
            var flag := EnvironmentFlags(pkg)(k);
            && (k in task.environments <==> k in p.envs || flag.Some?)
            && (k in task.environments ==>
                  && k in b.envs && task.environments[k] == Filled(b.envs[k].format, b.envs[k].fills)
                  && Some(b.envs[k].format) == if flag.Some? then flag else FormatIn(p.envs, k))
  {
    FormatOfKey(pkg, rt, checkedIn, compiledIn, k);
    EnvironmentsAre(pkg, rt, compiledIn, k);
  }

  lemma FormatOfKey(pkg: Package, rt: Runtime, checkedIn: seq<string>, compiledIn: seq<string>, k: string)
    requires Enumerates(pkg, checkedIn) && Enumerates(pkg, compiledIn) && Settled(pkg, checkedIn)
    requires Validate(pkg, checkedIn).Done? && Compile(pkg, rt, compiledIn).Done?
    ensures var flag := EnvironmentFlags(pkg)(k);
            FormatIn(Compile(pkg, rt, compiledIn).value.envs, k) ==
            if flag.Some? then flag else FormatIn(Validate(pkg, checkedIn).value.envs, k)
  {
    PreviewAndTaskAgree(pkg, rt, checkedIn, compiledIn);
  }

  lemma EnvironmentsAre(pkg: Package, rt: Runtime, order: seq<string>, k: string)
    requires ParseTask(pkg, rt, order).Done?
    ensures var b := Compile(pkg, rt, order).value;
            var task := ParseTask(pkg, rt, order).value;
            && (k in task.environments <==> k in b.envs)
            && (k in b.envs ==> task.environments[k] == Filled(b.envs[k].format, b.envs[k].fills))
  {
  }

  lemma SortsWithoutFlags(pkg: Package, order: seq<string>)
    requires Enumerates(pkg, order) && Validate(pkg, order).Done? && pkg.flagArguments == []
    ensures var args := Validate(pkg, order).value.args;
            var sorts := Ascending(args.Keys + FlagSorts(pkg));
            |sorts| == |args| && forall i :: 0 <= i < |sorts| ==> sorts[i] == i
  {
    AcceptedSorts(pkg, order);
    var keys := Validate(pkg, order).value.args.Keys;
    assert keys + FlagSorts(pkg) == keys;
    InitialAscending(keys, |keys|);
  }

  /** An accepted package numbers its arguments from 0. */
  lemma AcceptedSorts(pkg: Package, order: seq<string>)
    requires Enumerates(pkg, order) && Validate(pkg, order).Done?
    ensures forall k: nat :: k in Validate(pkg, order).value.args <==> k < |Validate(pkg, order).value.args|
  {
    ValidateAccepts(pkg, order);
    var args := Validate(pkg, order).value.args;
    KeysAre(pkg, order, args);
    var n :| SortsUpTo(AllArgs(pkg, order), n);
    assert args.Keys == InitialKeys(n);
  }

  // ---------------------------------------------------------------- iteration order

  lemma SameContents<K(!new), V>(x: map<K, Fill<V>>, y: map<K, Fill<V>>)
    requires forall k :: FormatIn(x, k) == FormatIn(y, k)
    requires forall k, nth: nat :: FillIn(x, k, nth) == FillIn(y, k, nth)
    ensures x == y
  {
    forall k ensures k in x <==> k in y { assert FormatIn(x, k) == FormatIn(y, k); }
    forall k | k in x ensures x[k] == y[k] {
      assert FormatIn(x, k) == FormatIn(y, k);
      forall nth: nat ensures nth in x[k].fills <==> nth in y[k].fills {
        assert FillIn(x, k, nth) == FillIn(y, k, nth);
      }
      forall nth: nat | nth in x[k].fills ensures x[k].fills[nth] == y[k].fills[nth] {
        assert FillIn(x, k, nth) == FillIn(y, k, nth);
      }
      assert x[k].fills == y[k].fills;
    }
  }

  lemma OrderFree<K(!new)>(start: map<K, Fill<Option<string>>>, base: seq<Write<K>>, a: seq<string>, b: seq<string>,
                           block: string -> seq<Write<K>>, value: Source -> Option<string>)
    requires SameTemplates(a, b) && Disjoint(a, block) && OneFormat(base + Blocks(a, block)) && Bare(start)
    ensures Written(start, base + Blocks(a, block), value) == Written(start, base + Blocks(b, block), value)
  {
    var x := Written(start, base + Blocks(a, block), value);
    var y := Written(start, base + Blocks(b, block), value);
    forall k, nth: nat ensures FormatIn(x, k) == FormatIn(y, k) && FillIn(x, k, nth) == FillIn(y, k, nth) {
      SameTables(start, start, base, a, b, block, value, value, k, nth);
    }
    forall k ensures FormatIn(x, k) == FormatIn(y, k) {
      SameTables(start, start, base, a, b, block, value, value, k, 0);
    }
    SameContents(x, y);
  }

  /** Whether the templates compile does not depend on the order they are iterated in. */
  lemma TemplatesAlike(pkg: Package, rt: Runtime, c: Build, a: seq<string>, b: seq<string>)
    requires SameTemplates(a, b)
    ensures ParseTemplates(pkg, rt, c, a).Done? <==> ParseTemplates(pkg, rt, c, b).Done?
  {
    TemplatesParsed(pkg, rt, c, a);
    TemplatesParsed(pkg, rt, c, b);
  }

  lemma CompileAlike(pkg: Package, rt: Runtime, a: seq<string>, b: seq<string>)
    requires SameTemplates(a, b)
    ensures Compile(pkg, rt, a).Done? <==> Compile(pkg, rt, b).Done?
  {
    var flags := EnteredFlags(pkg);
    if flags.Done? {
      var c := ParseSlots(pkg, rt, flags.value, pkg.slots);
      if c.Done? {
        TemplatesAlike(pkg, rt, c.value, a, b);
        var x, y := ParseTemplates(pkg, rt, c.value, a), ParseTemplates(pkg, rt, c.value, b);
        if x.Done? { OutputsAlike(pkg, rt, x.value, y.value, pkg.outputs); }
      }
    }
  }

  lemma CompiledOrderFree(pkg: Package, rt: Runtime, a: seq<string>, b: seq<string>)
    requires Enumerates(pkg, a) && Enumerates(pkg, b) && Settled(pkg, a)
    requires Compile(pkg, rt, a).Done? && Compile(pkg, rt, b).Done?
    ensures Compile(pkg, rt, a).value.args == Compile(pkg, rt, b).value.args
    ensures Compile(pkg, rt, a).value.envs == Compile(pkg, rt, b).value.envs
    ensures Carried(Compile(pkg, rt, a).value.stdin) == Carried(Compile(pkg, rt, b).value.stdin)
  {
    CompiledTables(pkg, rt, a);
    CompiledTables(pkg, rt, b);
    FlagsEntered(pkg);
    var flags := EnteredFlags(pkg).value;
    var c := ParseSlots(pkg, rt, flags, pkg.slots).value;
    KeptTemplates(pkg, rt, a);
    KeptTemplates(pkg, rt, b);
    var value := Values(pkg, rt, c.templates);
    OrderFree(flags.args, SlotArgs(pkg, pkg.slots), a, b, ArgBlock(pkg), value);
    OrderFree(flags.envs, SlotEnvs(pkg, pkg.slots), a, b, EnvBlock(pkg), value);
    SameLast(SlotStd(pkg.slots), a, b, StdBlock(pkg), 0, 0);
  }

  lemma TaskIs(pkg: Package, rt: Runtime, order: seq<string>)
    ensures ParseTask(pkg, rt, order).Done? <==> Compile(pkg, rt, order).Done?
    ensures ParseTask(pkg, rt, order).Done? ==>
              var b := Compile(pkg, rt, order).value;
              var task := ParseTask(pkg, rt, order).value;
              task.arguments == Arguments(b.args) && task.environments == Environments(b.envs) && task.stdin == b.stdin
  {
  }

  /** Neither whether a package compiles, nor the command line, the environment and what standard input
      carries, depends on the order the used templates are iterated in. */
  lemma OrderDoesNotShow(pkg: Package, rt: Runtime, a: seq<string>, b: seq<string>)
    requires Enumerates(pkg, a) && Enumerates(pkg, b) && Settled(pkg, a)
    ensures ParseTask(pkg, rt, a).Done? <==> ParseTask(pkg, rt, b).Done?
    ensures ParseTask(pkg, rt, a).Done? ==>
              var x, y := ParseTask(pkg, rt, a).value, ParseTask(pkg, rt, b).value;
              x.arguments == y.arguments && x.environments == y.environments && Carried(x.stdin) == Carried(y.stdin)
  {
    CompileAlike(pkg, rt, a, b);
    TaskIs(pkg, rt, a);
    TaskIs(pkg, rt, b);
    if ParseTask(pkg, rt, a).Done? { CompiledOrderFree(pkg, rt, a, b); }
  }

  lemma KeptTemplates(pkg: Package, rt: Runtime, order: seq<string>)
    requires Compile(pkg, rt, order).Done?
    ensures EnteredFlags(pkg).Done? && ParseSlots(pkg, rt, EnteredFlags(pkg).value, pkg.slots).Done?
    ensures Compile(pkg, rt, order).value.templates ==
            ParseSlots(pkg, rt, EnteredFlags(pkg).value, pkg.slots).value.templates
  {
    var c := ParseSlots(pkg, rt, EnteredFlags(pkg).value, pkg.slots).value;
    TemplatesParsed(pkg, rt, c, order);
    OutputsKeepTables(pkg, rt, ParseTemplates(pkg, rt, c, order).value, pkg.outputs);
  }
}
