/** The keyed format tables both package compilers fold references into, and what a table says in the
    end: for each key the format of its first reference, for each placeholder its last filling. */
module FormatTables {
  import opened Basics

  /** A format and what fills its placeholders. */
  datatype Fill<V> = Fill(format: string, fills: map<nat, V>)

  /** `entry(key).or_insert(format).placeholder_fill_map.insert(nth, v)` */
  function Put<K, V>(table: map<K, Fill<V>>, key: K, format: string, nth: nat, v: V): map<K, Fill<V>> {
    var f := if key in table then table[key] else Fill(format, map[]);
    table[key := Fill(f.format, f.fills[nth := v])]
  }

  /** The loop that puts a value under several keys of a template:
      `entry(template).or_insert(HashMap::new()).insert(key, v)` for each key. */
  function PutKeys<V>(table: map<string, map<string, V>>, template: string, keys: seq<string>,
                      v: V): map<string, map<string, V>>
    decreases |keys|
  {
    if keys == [] then table
    else
      var inner := if template in table then table[template] else map[];
      PutKeys(table[template := inner[keys[0] := v]], template, keys[1..], v)
  }

  /** Where a filling comes from: the input of a slot, the filled content of a template, or its file name. */
  datatype Source = Slot(descriptor: string) | Content(template: string) | Name(template: string)

  /** One reference folded into a table. */
  datatype Write<K> = Write(key: K, format: string, nth: nat, source: Source)

  /** A table after a list of references, each source standing for a value. */
  function Written<K, V>(table: map<K, Fill<V>>, writes: seq<Write<K>>, value: Source -> V): map<K, Fill<V>>
    decreases |writes|
  {
    if writes == [] then table
    else
      var w := writes[0];
      Written(Put(table, w.key, w.format, w.nth, value(w.source)), writes[1..], value)
  }

  lemma {:induction false} WrittenConcat<K, V>(table: map<K, Fill<V>>, a: seq<Write<K>>, b: seq<Write<K>>,
                                               value: Source -> V)
    ensures Written(table, a + b, value) == Written(Written(table, a, value), b, value)
    decreases |a|
  {
    if a == [] {
      assert a + b == b;
    } else {
      var w := a[0];
      assert (a + b)[0] == w && (a + b)[1..] == a[1..] + b;
      WrittenConcat(Put(table, w.key, w.format, w.nth, value(w.source)), a[1..], b, value);
    }
  }

  // ---------------------------------------------------------------- what a table says

  /** The format of the first reference to a key. */
  function FirstFormat<K(==)>(writes: seq<Write<K>>, key: K): Option<string> {
    if writes == [] then None
    else if writes[0].key == key then Some(writes[0].format)
    else FirstFormat(writes[1..], key)
  }

  /** The source of the last reference to a placeholder. */
  function LastSource<K(==)>(writes: seq<Write<K>>, key: K, nth: nat): Option<Source> {
    if writes == [] then None
    else
      var r := LastSource(writes[1..], key, nth);
      if r.Some? then r else if writes[0].key == key && writes[0].nth == nth then Some(writes[0].source) else None
  }

  function FormatIn<K, V>(table: map<K, Fill<V>>, key: K): Option<string> {
    if key in table then Some(table[key].format) else None
  }

  function FillIn<K, V>(table: map<K, Fill<V>>, key: K, nth: nat): Option<V> {
    if key in table && nth in table[key].fills then Some(table[key].fills[nth]) else None
  }

  lemma {:induction false} WrittenFormat<K, V>(table: map<K, Fill<V>>, writes: seq<Write<K>>, value: Source -> V,
                                               key: K)
    ensures FormatIn(Written(table, writes, value), key) ==
            if key in table then FormatIn(table, key) else FirstFormat(writes, key)
    decreases |writes|
  {
    if writes != [] {
      var w := writes[0];
      WrittenFormat(Put(table, w.key, w.format, w.nth, value(w.source)), writes[1..], value, key);
    }
  }

  lemma {:induction false} WrittenFill<K, V>(table: map<K, Fill<V>>, writes: seq<Write<K>>, value: Source -> V, key: K,
                                             nth: nat)
    ensures var s := LastSource(writes, key, nth);
            FillIn(Written(table, writes, value), key, nth) ==
              if s.Some? then Some(value(s.value)) else FillIn(table, key, nth)
    decreases |writes|
  {
    if writes != [] {
      var w := writes[0];
      WrittenFill(Put(table, w.key, w.format, w.nth, value(w.source)), writes[1..], value, key, nth);
    }
  }

  lemma {:induction false} LastConcat<K>(a: seq<Write<K>>, b: seq<Write<K>>, key: K, nth: nat)
    ensures LastSource(a + b, key, nth) ==
            if LastSource(b, key, nth).Some? then LastSource(b, key, nth) else LastSource(a, key, nth)
  {
    if a == [] {
      assert a + b == b;
    } else {
      assert (a + b)[0] == a[0] && (a + b)[1..] == a[1..] + b;
      LastConcat(a[1..], b, key, nth);
    }
  }

  /** What the last of some mounts to one place leaves there. */
  function LastMounted<V>(before: V, mounts: seq<Write<nat>>, value: Source -> V): V {
    var s := LastSource(mounts, 0, 0);
    if s.Some? then value(s.value) else before
  }

  lemma MountedTwice<V>(before: V, a: seq<Write<nat>>, b: seq<Write<nat>>, value: Source -> V)
    ensures LastMounted(before, a + b, value) == LastMounted(LastMounted(before, a, value), b, value)
  {
    LastConcat(a, b, 0, 0);
  }

  lemma {:induction false} FirstAmong<K>(writes: seq<Write<K>>, key: K)
    ensures FirstFormat(writes, key).Some? <==> exists w :: w in writes && w.key == key
    ensures FirstFormat(writes, key).Some? ==>
            exists w :: w in writes && w.key == key && w.format == FirstFormat(writes, key).value
  {
    if writes != [] {
      FirstAmong(writes[1..], key);
      assert writes[0] in writes;
    }
  }

  // ---------------------------------------------------------------- iteration order

  /** The references of the templates, in some order of the templates. */
  function Blocks<K(!new)>(order: seq<string>, block: string -> seq<Write<K>>): (all: seq<Write<K>>)
    ensures forall w :: w in all <==> exists t :: t in order && w in block(t)
  {
    if order == [] then []
    else
      var rest := Blocks(order[1..], block);
      assert forall t :: t in order <==> t == order[0] || t in order[1..];
      block(order[0]) + rest
  }

  /** Different templates fill different placeholders. */
  ghost predicate Disjoint<K(!new)>(order: seq<string>, block: string -> seq<Write<K>>) {
    forall t, u, key, nth | t in order && u in order ::
      LastSource(block(t), key, nth).Some? && LastSource(block(u), key, nth).Some? ==> t == u
  }

  /** References to one key agree on its format. */
  ghost predicate OneFormat<K(!new)>(writes: seq<Write<K>>) {
    forall w, v :: w in writes && v in writes && w.key == v.key ==> w.format == v.format
  }

  /** A template that fills the placeholder decides, wherever it comes. */
  lemma {:induction false} LastInBlocks<K(!new)>(order: seq<string>, block: string -> seq<Write<K>>, key: K, nth: nat,
                                                 t: string)
    requires Disjoint(order, block) && t in order && LastSource(block(t), key, nth).Some?
    ensures LastSource(Blocks(order, block), key, nth) == LastSource(block(t), key, nth)
  {
    var rest := order[1..];
    LastConcat(block(order[0]), Blocks(rest, block), key, nth);
    if t in rest {
      LastInBlocks(rest, block, key, nth, t);
    } else {
      forall u | u in rest ensures LastSource(block(u), key, nth).None? {}
      NoneInBlocks(rest, block, key, nth);
    }
  }

  lemma {:induction false} NoneInBlocks<K(!new)>(order: seq<string>, block: string -> seq<Write<K>>, key: K, nth: nat)
    requires forall u :: u in order ==> LastSource(block(u), key, nth).None?
    ensures LastSource(Blocks(order, block), key, nth).None?
  {
    if order != [] {
      LastConcat(block(order[0]), Blocks(order[1..], block), key, nth);
      NoneInBlocks(order[1..], block, key, nth);
    }
  }

  /** Two orders of the same templates. */
  ghost predicate SameTemplates(a: seq<string>, b: seq<string>) {
    forall t :: t in a <==> t in b
  }

  lemma SameLast<K(!new)>(base: seq<Write<K>>, a: seq<string>, b: seq<string>, block: string -> seq<Write<K>>, key: K,
                          nth: nat)
    requires SameTemplates(a, b) && Disjoint(a, block)
    ensures LastSource(base + Blocks(a, block), key, nth) == LastSource(base + Blocks(b, block), key, nth)
  {
    LastConcat(base, Blocks(a, block), key, nth);
    LastConcat(base, Blocks(b, block), key, nth);
    if t: string :| t in a && LastSource(block(t), key, nth).Some? {
      LastInBlocks(a, block, key, nth, t);
      LastInBlocks(b, block, key, nth, t);
    } else {
      NoneInBlocks(a, block, key, nth);
      NoneInBlocks(b, block, key, nth);
    }
  }

  /** Two templates that fill one placeholder: the later one decides, so the order shows. */
  lemma OrderShows<K(!new)>(base: seq<Write<K>>, t: string, u: string, block: string -> seq<Write<K>>, key: K, nth: nat)
    requires LastSource(block(t), key, nth).Some? && LastSource(block(u), key, nth).Some?
    ensures LastSource(base + Blocks([t, u], block), key, nth) == LastSource(block(u), key, nth)
    ensures LastSource(base + Blocks([u, t], block), key, nth) == LastSource(block(t), key, nth)
  {
    PairLast(base, t, u, block, key, nth);
    PairLast(base, u, t, block, key, nth);
  }

  lemma PairLast<K(!new)>(base: seq<Write<K>>, t: string, u: string, block: string -> seq<Write<K>>, key: K, nth: nat)
    requires LastSource(block(u), key, nth).Some?
    ensures LastSource(base + Blocks([t, u], block), key, nth) == LastSource(block(u), key, nth)
  {
    assert [t, u][1..] == [u] && [u][1..] == [];
    assert Blocks([u], block) == block(u);
    LastConcat(block(t), block(u), key, nth);
    LastConcat(base, block(t) + block(u), key, nth);
  }

  lemma SameFirst<K(!new)>(base: seq<Write<K>>, a: seq<string>, b: seq<string>, block: string -> seq<Write<K>>, key: K)
    requires SameTemplates(a, b) && OneFormat(base + Blocks(a, block))
    ensures FirstFormat(base + Blocks(a, block), key) == FirstFormat(base + Blocks(b, block), key)
  {
    var x, y := base + Blocks(a, block), base + Blocks(b, block);
    FirstAmong(x, key);
    FirstAmong(y, key);
    assert forall w :: w in x <==> w in y;
  }

  /** A table of formats that nothing fills yet. */
  ghost predicate Bare<K(!new), V>(table: map<K, Fill<V>>) {
    forall k :: k in table ==> table[k].fills == map[]
  }

  /** Two tables written in different orders of the templates, under different readings of the sources:
      keys and formats are those they start with, then those of the first references, and each
      placeholder is filled from the same source. */
  lemma SameTables<K(!new), V, W>(p: map<K, Fill<V>>, q: map<K, Fill<W>>, base: seq<Write<K>>,
                                  a: seq<string>, b: seq<string>, block: string -> seq<Write<K>>,
                                  left: Source -> V, right: Source -> W, key: K, nth: nat)
    requires SameTemplates(a, b) && Disjoint(a, block) && OneFormat(base + Blocks(a, block)) && Bare(p) && Bare(q)
    ensures var x := Written(p, base + Blocks(a, block), left);
            var y := Written(q, base + Blocks(b, block), right);
            var f := FirstFormat(base + Blocks(a, block), key);
            var s := LastSource(base + Blocks(a, block), key, nth);
            && FormatIn(x, key) == (if key in p then FormatIn(p, key) else f)
            && FormatIn(y, key) == (if key in q then FormatIn(q, key) else f)
            && FillIn(x, key, nth) == (if s.Some? then Some(left(s.value)) else None)
            && FillIn(y, key, nth) == if s.Some? then Some(right(s.value)) else None
  {
    var ws, vs := base + Blocks(a, block), base + Blocks(b, block);
    SameLast(base, a, b, block, key, nth);
    SameFirst(base, a, b, block, key);
    WrittenFormat(p, ws, left, key);
    WrittenFormat(q, vs, right, key);
    WrittenFill(p, ws, left, key, nth);
    WrittenFill(q, vs, right, key, nth);
  }
}
