/** Filling the placeholders of a format: each key, in ascending order, replaces the first placeholder
    still there. */
module Placeholder {
  import opened Basics
  import opened Text

  const HOLE := "{{}}"

  // ---------------------------------------------------------------- ascending keys

  predicate IsMin(m: nat, keys: set<nat>) {
    m in keys && forall x :: x in keys ==> m <= x
  }

  lemma {:induction false} MinOf(keys: set<nat>) returns (m: nat)
    requires keys != {}
    ensures IsMin(m, keys)
    decreases |keys|
  {
    var k :| k in keys;
    m := k;
    if keys - {k} != {} {
      var rest := MinOf(keys - {k});
      if rest < k { m := rest; }
      forall x | x in keys ensures m <= x { if x != k { assert x in keys - {k}; } }
    } else {
      assert keys == keys - {k} + {k};
    }
  }

  lemma MinExists(keys: set<nat>)
    requires keys != {}
    ensures exists m :: IsMin(m, keys)
  {
    var m := MinOf(keys);
  }

  predicate Increasing(r: seq<nat>) {
    forall i, j :: 0 <= i < j < |r| ==> r[i] < r[j]
  }

  lemma AscendingCons(keys: set<nat>, m: nat, rest: seq<nat>)
    requires IsMin(m, keys) && Increasing(rest)
    requires forall k :: k in rest <==> k in keys - {m}
    ensures Increasing([m] + rest)
    ensures forall k :: k in [m] + rest <==> k in keys
  {
    forall i | 0 <= i < |rest| ensures m < rest[i] { assert rest[i] in rest; }
  }

  /** `sort_by` on the keys of a map. */
  function Ascending(keys: set<nat>): (r: seq<nat>)
    ensures |r| == |keys|
    ensures forall k :: k in r <==> k in keys
    ensures Increasing(r)
    decreases |keys|
  {
    if keys == {} then []
    else
      MinExists(keys);
      var m :| IsMin(m, keys);
      var rest := Ascending(keys - {m});
      AscendingCons(keys, m, rest);
      [m] + rest
  }

  /** The keys 0 to n-1 are their own ranks. */
  lemma {:induction false} InitialRanks(keys: seq<nat>, i: nat)
    requires Increasing(keys)
    requires forall k :: k in keys <==> 0 <= k < |keys|
    requires i < |keys|
    ensures keys[i] == i
  {
    if i > 0 { InitialRanks(keys, i - 1); }
    assert i in keys && keys[i] in keys;
    var j :| 0 <= j < |keys| && keys[j] == i;
    if j < i { InitialRanks(keys, j); }
  }

  // ---------------------------------------------------------------- filling

  /** `replacen(hole, fill, 1)` */
  function ReplaceFirst(s: string, hole: string, fill: string): string {
    var i := IndexOf(s, hole);
    if i.None? then s else s[..i.value] + fill + s[i.value + |hole|..]
  }

  function FillText(v: Option<string>): string {
    if v.Some? then v.value else ""
  }

  /** The texts to fill in, in the order of the keys. */
  function ValuesOf(keys: seq<nat>, fills: map<nat, Option<string>>): (values: seq<string>)
    requires forall k :: k in keys ==> k in fills
    ensures |values| == |keys| && forall i :: 0 <= i < |keys| ==> values[i] == FillText(fills[keys[i]])
  {
    seq(|keys|, i requires 0 <= i < |keys| => FillText(fills[keys[i]]))
  }

  function FillInOrder(format: string, hole: string, values: seq<string>): string
    decreases |values|
  {
    if values == [] then format else FillInOrder(ReplaceFirst(format, hole, values[0]), hole, values[1..])
  }

  /** What the loop over the placeholders makes of a format. */
  function Filled(format: string, fills: map<nat, Option<string>>): string {
    FillInOrder(format, HOLE, ValuesOf(Ascending(fills.Keys), fills))
  }

  method FillPlaceholders(format: string, fills: map<nat, Option<string>>) returns (text: string)
    ensures text == Filled(format, fills)
  {
    text := FillKeys(format, Ascending(fills.Keys), fills);
  }

  method FillKeys(format: string, keys: seq<nat>, fills: map<nat, Option<string>>) returns (text: string)
    requires forall k :: k in keys ==> k in fills
    ensures text == FillInOrder(format, HOLE, ValuesOf(keys, fills))
  {
    text := format;
    ghost var values := ValuesOf(keys, fills);
    var i := 0;
    assert values[0..] == values;
    while i < |keys|
      invariant 0 <= i <= |keys|
      invariant FillInOrder(text, HOLE, values[i..]) == FillInOrder(format, HOLE, values)
    {
      FillNext(text, values, i);
      assert keys[i] in keys;
      text := ReplaceFirst(text, HOLE, FillText(fills[keys[i]]));
      i := i + 1;
    }
    assert values[i..] == [];
  }

  lemma FillNext(text: string, values: seq<string>, i: nat)
    requires i < |values|
    ensures FillInOrder(text, HOLE, values[i..]) ==
            FillInOrder(ReplaceFirst(text, HOLE, values[i]), HOLE, values[i + 1..])
  {
    assert values[i..][0] == values[i] && values[i..][1..] == values[i + 1..];
  }

  // ---------------------------------------------------------------- simultaneous substitution

  /** The segments with a value in each gap, and the placeholder itself where the values run out. */
  function Weave(segments: seq<string>, hole: string, values: seq<string>): string
    requires segments != []
  {
    if |segments| == 1 then segments[0]
    else if values == [] then segments[0] + hole + Weave(segments[1..], hole, [])
    else segments[0] + values[0] + Weave(segments[1..], hole, values[1..])
  }

  lemma WeaveCons(x: string, parts: seq<string>, hole: string)
    requires parts != []
    ensures Weave([x] + parts, hole, []) == x + hole + Weave(parts, hole, [])
  {
    assert ([x] + parts)[1..] == parts;
  }

  lemma SplitAround(s: string, hole: string, i: nat)
    requires i + |hole| <= |s| && hole <= s[i..]
    ensures s == s[..i] + hole + s[i + |hole|..]
  {
  }

  lemma {:induction false} WeaveSplit(s: string, hole: string)
    requires hole != ""
    ensures Weave(Split(s, hole), hole, []) == s
    decreases |s|
  {
    var i := IndexOf(s, hole);
    if i.Some? {
      var rest := After(s, hole);
      WeaveSplit(rest, hole);
      WeaveCons(Before(s, hole), Split(rest, hole), hole);
      SplitAround(s, hole, i.value);
    }
  }

  /** Text that contains no placeholder. Single braces are no placeholder. */
  predicate Free(s: string) {
    IndexOf(s, HOLE).None?
  }

  lemma FreePrefix(x: string, y: string)
    requires Free(x + y)
    ensures Free(x)
  {
    NoIndexNowhere(x, HOLE);
    forall j | 0 <= j <= |x| ensures !(HOLE <= x[j..]) { NoHoleAt(x, y, j); }
  }

  lemma NoHoleAt(x: string, y: string, j: nat)
    requires Free(x + y) && j <= |x|
    ensures !(HOLE <= x[j..])
  {
    NoIndexNowhere(x + y, HOLE);
    assert (x + y)[j..] == x[j..] + y;
    assert !(HOLE <= (x + y)[j..]);
  }

  /** No placeholder overlaps another one. */
  lemma NoOverlap(x: string, rest: string, j: nat)
    requires Free(x) && j < |x|
    ensures !(HOLE <= (x + HOLE + rest)[j..])
  {
    var s := x + HOLE + rest;
    NoIndexNowhere(x, HOLE);
    assert HOLE <= s[j..] <==> s[j..j + 4] == HOLE;
    if j + 4 <= |x| {
      assert s[j..j + 4] == x[j..j + 4];
      assert HOLE <= x[j..] <==> x[j..j + 4] == HOLE;
    } else {
      var k := |x| - j;
      assert s[j..j + 4][k] == s[|x|] == '{' && HOLE[2] == HOLE[3] == '}';
      assert k == 1 ==> s[j..j + 4][2] == s[|x| + 1] == '{';
    }
  }

  /** Behind text without a placeholder, the next placeholder is the first one. */
  lemma FirstBehindFree(x: string, rest: string)
    requires Free(x)
    ensures IndexOf(x + HOLE + rest, HOLE) == Some(|x|)
  {
    var s := x + HOLE + rest;
    assert s[|x|..] == HOLE + rest;
    forall j | 0 <= j < |x| ensures !(HOLE <= s[j..]) { NoOverlap(x, rest, j); }
    IndexIsFirst(s, HOLE, |x|);
  }

  lemma SliceAround(x: string, hole: string, rest: string)
    ensures (x + hole + rest)[..|x|] == x && (x + hole + rest)[|x| + |hole|..] == rest
  {
  }

  lemma ReplaceAround(x: string, rest: string, value: string)
    requires Free(x)
    ensures ReplaceFirst(x + HOLE + rest, HOLE, value) == x + value + rest
  {
    FirstBehindFree(x, rest);
    SliceAround(x, HOLE, rest);
  }

  lemma Associate(a: string, b: string, c: string, d: string)
    ensures a + (b + c + d) == a + b + c + d
  {
  }

  lemma FillOne(front: string, segments: seq<string>, value: string)
    requires |segments| > 1 && Free(front + segments[0])
    ensures ReplaceFirst(front + Weave(segments, HOLE, []), HOLE, value) ==
            front + segments[0] + value + Weave(segments[1..], HOLE, [])
  {
    var rest := Weave(segments[1..], HOLE, []);
    Associate(front, segments[0], HOLE, rest);
    ReplaceAround(front + segments[0], rest, value);
  }

  lemma {:induction false} FillNone(format: string, values: seq<string>)
    requires Free(format)
    ensures FillInOrder(format, HOLE, values) == format
    decreases |values|
  {
    if values != [] { FillNone(format, values[1..]); }
  }

  /** Whenever a value is filled in, no placeholder comes before the one that is due; when none is due any
      more, there is none at all. */
  predicate Settles(front: string, segments: seq<string>, values: seq<string>)
    requires segments != []
    decreases |values|
  {
    values == [] ||
    (&& Free(front + segments[0])
     && (|segments| == 1 || Settles(front + segments[0] + values[0], segments[1..], values[1..])))
  }

  /** Filling one by one, behind text that is done with. */
  lemma {:induction false} FillIsWeave(front: string, segments: seq<string>, values: seq<string>)
    requires segments != [] && Settles(front, segments, values)
    ensures FillInOrder(front + Weave(segments, HOLE, []), HOLE, values) == front + Weave(segments, HOLE, values)
    decreases |values|
  {
    if values != [] {
      if |segments| == 1 {
        FillNone(front + segments[0], values);
      } else {
        FillOne(front, segments, values[0]);
        var front' := front + segments[0] + values[0];
        FillIsWeave(front', segments[1..], values[1..]);
        Associate(front, segments[0], values[0], Weave(segments[1..], HOLE, values[1..]));
      }
    }
  }

  /** Filling one by one is filling all at once, the value with the r-th smallest key landing in the r-th
      placeholder, as long as the values bring no placeholder in front of the one that is due. */
  lemma FilledAtOnce(format: string, fills: map<nat, Option<string>>)
    requires Settles("", Split(format, HOLE), ValuesOf(Ascending(fills.Keys), fills))
    ensures Filled(format, fills) == Weave(Split(format, HOLE), HOLE, ValuesOf(Ascending(fills.Keys), fills))
  {
    var values := ValuesOf(Ascending(fills.Keys), fills);
    WeaveSplit(format, HOLE);
    FillIsWeave("", Split(format, HOLE), values);
    assert "" + format == format;
    assert "" + Weave(Split(format, HOLE), HOLE, values) == Weave(Split(format, HOLE), HOLE, values);
  }

  /** Values that leave no placeholder anywhere settle, whatever single braces they hold. */
  lemma {:induction false} CleanSettles(front: string, segments: seq<string>, values: seq<string>)
    requires segments != [] && Free(front + Weave(segments, HOLE, values))
    ensures Settles(front, segments, values)
    decreases |values|
  {
    if values != [] {
      if |segments| > 1 {
        var rest := Weave(segments[1..], HOLE, values[1..]);
        Associate(front, segments[0], values[0], rest);
        CleanSettles(front + segments[0] + values[0], segments[1..], values[1..]);
        assert front + segments[0] + values[0] + rest == (front + segments[0]) + (values[0] + rest);
        FreePrefix(front + segments[0], values[0] + rest);
      }
    }
  }

  /** The keys 0 to n-1. */
  function InitialKeys(n: nat): (r: set<nat>)
    ensures |r| == n && forall k :: k in r <==> 0 <= k < n
  {
    if n == 0 then {} else InitialKeys(n - 1) + {n - 1}
  }

  lemma InitialAscending(keys: set<nat>, n: nat)
    requires forall k :: k in keys <==> 0 <= k < n
    ensures |Ascending(keys)| == n && forall i :: 0 <= i < n ==> Ascending(keys)[i] == i
  {
    assert keys == InitialKeys(n);
    forall i | 0 <= i < n ensures Ascending(keys)[i] == i { InitialRanks(Ascending(keys), i); }
  }

  lemma RankedValues(keys: seq<nat>, fills: map<nat, Option<string>>, values: seq<string>)
    requires |keys| == |values| && forall i :: 0 <= i < |keys| ==>
               keys[i] == i && i in fills && values[i] == FillText(fills[i])
    ensures forall k :: k in keys ==> k in fills
    ensures ValuesOf(keys, fills) == values
  {
  }

  lemma InitialValues(fills: map<nat, Option<string>>, values: seq<string>)
    requires fills.Keys == InitialKeys(|values|)
    requires forall k :: 0 <= k < |values| ==> values[k] == FillText(fills[k])
    ensures ValuesOf(Ascending(fills.Keys), fills) == values
  {
    InitialAscending(fills.Keys, |values|);
    RankedValues(Ascending(fills.Keys), fills, values);
  }

  /** So do values without an opening brace, in a format with none between its placeholders. */
  lemma {:induction false} PlainSettles(front: string, segments: seq<string>, values: seq<string>)
    requires segments != [] && '{' !in front
    requires forall s :: s in segments || s in values ==> '{' !in s
    ensures Settles(front, segments, values)
    decreases |values|
  {
    if values != [] {
      assert segments[0] in segments && values[0] in values;
      NoIndexInPlain(front + segments[0], HOLE);
      if |segments| > 1 { PlainSettles(front + segments[0] + values[0], segments[1..], values[1..]); }
    }
  }

  /** With keys 0 to m-1 the value registered for key k lands in the k-th placeholder. */
  lemma FilledByKey(format: string, fills: map<nat, Option<string>>, values: seq<string>)
    requires fills.Keys == InitialKeys(|values|)
    requires forall k :: 0 <= k < |values| ==> values[k] == FillText(fills[k])
    requires Settles("", Split(format, HOLE), values)
    ensures Filled(format, fills) == Weave(Split(format, HOLE), HOLE, values)
  {
    InitialValues(fills, values);
    FilledAtOnce(format, fills);
  }

  /** A value that contains a placeholder takes the next value into itself, and the placeholder that
      value was meant for stays. */
  lemma PlaceholderInValue(x: string, y: string, a: string, b: string, next: string)
    requires Free(x + a)
    ensures Filled(x + HOLE + y, map[0 := Some(a + HOLE + b), 1 := Some(next)]) == x + a + next + b + y
  {
    var fills: map<nat, Option<string>> := map[0 := Some(a + HOLE + b), 1 := Some(next)];
    assert fills.Keys == InitialKeys(2) by { assert InitialKeys(1) == {0}; }
    InitialValues(fills, [a + HOLE + b, next]);
    Absorbed(x, y, a, b, next);
  }

  lemma FillTwo(format: string, first: string, next: string)
    ensures FillInOrder(format, HOLE, [first, next]) ==
            ReplaceFirst(ReplaceFirst(format, HOLE, first), HOLE, next)
  {
    assert [first, next][1..] == [next] && [next][1..] == [];
    var once := ReplaceFirst(format, HOLE, first);
    assert FillInOrder(once, HOLE, [next]) == FillInOrder(ReplaceFirst(once, HOLE, next), HOLE, []);
  }

  lemma Regroup(x: string, a: string, m: string, b: string, y: string)
    ensures x + (a + m + b) + y == (x + a) + m + (b + y)
    ensures (x + a) + m + (b + y) == x + a + m + b + y
  {
  }

  lemma Absorbed(x: string, y: string, a: string, b: string, next: string)
    requires Free(x + a)
    ensures FillInOrder(x + HOLE + y, HOLE, [a + HOLE + b, next]) == x + a + next + b + y
  {
    FillTwo(x + HOLE + y, a + HOLE + b, next);
    FreePrefix(x, a);
    ReplaceAround(x, y, a + HOLE + b);
    Regroup(x, a, HOLE, b, y);
    ReplaceAround(x + a, b + y, next);
    Regroup(x, a, next, b, y);
  }
}
