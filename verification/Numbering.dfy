/** The numbering of the arguments: the scan over the sorted keys of the argument table. */
module Numbering {
  import opened Basics
  import opened Placeholder

  /** The scan after the first key: each key must be one more than the one before. The subtraction is
      on machine integers and panics below zero. */
  function Scan(p: nat, keys: seq<nat>): Outcome<(), ()>
    decreases |keys|
  {
    if keys == [] then Done(())
    else if keys[0] < p then Panicked
    else if keys[0] - p != 1 then Failed(())
    else Scan(keys[0], keys[1..])
  }

  /** The whole check. */
  function Check(keys: seq<nat>): Outcome<(), ()> {
    if keys == [] then Done(())
    else if keys[0] != 0 then Failed(())
    else Scan(0, keys[1..])
  }

  method CheckSorts(keys: seq<nat>) returns (r: Outcome<(), ()>)
    ensures r == Check(keys)
  {
    if keys == [] { return Done(()); }
    var p: nat := 0;
    if keys[0] != p { return Failed(()); }
    var i := 1;
    while i < |keys|
      invariant 1 <= i <= |keys|
      invariant Scan(p, keys[i..]) == Scan(0, keys[1..])
    {
      var current := keys[i];
      assert keys[i..][0] == current && keys[i..][1..] == keys[i + 1..];
      if current < p { return Panicked; }
      if current - p != 1 { return Failed(()); }
      p := current;
      i := i + 1;
    }
    return Done(());
  }

  lemma {:induction false} ScanIs(p: nat, keys: seq<nat>)
    requires Increasing(keys)
    requires forall i :: 0 <= i < |keys| ==> p < keys[i]
    ensures !Scan(p, keys).Panicked?
    ensures Scan(p, keys).Done? <==> forall i :: 0 <= i < |keys| ==> keys[i] == p + 1 + i
    decreases |keys|
  {
    if keys != [] {
      if keys[0] == p + 1 {
        ScanIs(keys[0], keys[1..]);
        if forall i :: 0 <= i < |keys| ==> keys[i] == p + 1 + i {
          forall i | 0 <= i < |keys[1..]| ensures keys[1..][i] == keys[0] + 1 + i {
            assert keys[1..][i] == keys[i + 1];
          }
        }
        if Scan(keys[0], keys[1..]).Done? {
          forall i | 0 <= i < |keys| ensures keys[i] == p + 1 + i { if i > 0 { assert keys[i] == keys[1..][i - 1]; } }
        }
      }
    }
  }

  lemma CheckIs(keys: seq<nat>)
    requires Increasing(keys)
    ensures !Check(keys).Panicked?
    ensures Check(keys).Done? <==> forall i :: 0 <= i < |keys| ==> keys[i] == i
  {
    if keys != [] {
      var rest := keys[1..];
      assert forall i :: 0 <= i < |rest| ==> rest[i] == keys[i + 1];
      if keys[0] == 0 { ScanIs(0, rest); }
      if Check(keys).Done? {
        forall i | 0 <= i < |keys| ensures keys[i] == i { if i > 0 { assert keys[i] == rest[i - 1]; } }
      }
    }
  }

  /** The keys are 0 to n-1. */
  ghost predicate UpTo(keys: set<nat>) {
    forall k: nat :: k in keys <==> k < |keys|
  }

  lemma AcceptedIsUpTo(keys: set<nat>, sorted: seq<nat>)
    requires |sorted| == |keys| && (forall k :: k in sorted <==> k in keys)
    requires forall i :: 0 <= i < |sorted| ==> sorted[i] == i
    ensures UpTo(keys)
  {
    forall k: nat ensures k in keys <==> k < |keys| {
      if k < |sorted| { assert sorted[k] == k; }
    }
  }

  lemma UpToIsAccepted(keys: set<nat>)
    requires UpTo(keys)
    ensures Check(Ascending(keys)).Done?
  {
    InitialAscending(keys, |keys|);
    CheckIs(Ascending(keys));
  }

  /** The check accepts the key set exactly when it is {0, ..., n-1}, and its subtraction never
      underflows. */
  lemma NumberingExact(keys: set<nat>)
    ensures !Check(Ascending(keys)).Panicked?
    ensures Check(Ascending(keys)).Done? <==> UpTo(keys)
  {
    CheckIs(Ascending(keys));
    if Check(Ascending(keys)).Done? { AcceptedIsUpTo(keys, Ascending(keys)); }
    if UpTo(keys) { UpToIsAccepted(keys); }
  }
}
