/** Small failure types and sequence facts shared by every module. */
module Basics {

  type byte = x: int | 0 <= x < 256

  datatype Option<+T> = None | Some(value: T)

  /** How a service call ends: with a value, with an error it returns, or in a panic (an `unwrap` on
      nothing, `todo!`, `unreachable!`). */
  datatype Outcome<+T, +E> = Done(value: T) | Failed(error: E) | Panicked {

    predicate IsFailure() {
      !Done?
    }

    function PropagateFailure<U>(): Outcome<U, E>
      requires IsFailure()
    {
      if Failed? then Outcome<U, E>.Failed(error) else Panicked
    }

    function Extract(): T
      requires Done?
    {
      value
    }
  }

  /** `find(..)` on a list whose elements carry a key: the first element with that key. */
  function Find<T, K(==)>(s: seq<T>, key: T -> K, k: K): (r: Option<T>)
    ensures r.Some? ==> r.value in s && key(r.value) == k
    ensures r.None? ==> forall x :: x in s ==> key(x) != k
  {
    if s == [] then None else if key(s[0]) == k then Some(s[0]) else Find(s[1..], key, k)
  }

  /** It is the first: a list finds the element at a position exactly when no earlier one has its key. */
  lemma {:induction false} FindIsFirst<T, K>(s: seq<T>, key: T -> K, i: nat)
    requires i < |s| && forall j :: 0 <= j < i ==> key(s[j]) != key(s[i])
    ensures Find(s, key, key(s[i])) == Some(s[i])
  {
    if i > 0 {
      assert s[1..][i - 1] == s[i];
      assert forall j :: 0 <= j < i - 1 ==> s[1..][j] == s[j + 1];
      FindIsFirst(s[1..], key, i - 1);
    }
  }

  /** `find(..).ok_or(error)?` */
  function FindOr<T, K(==), E>(s: seq<T>, key: T -> K, k: K, error: E): Outcome<T, E> {
    var r := Find(s, key, k);
    if r.Some? then Done(r.value) else Failed(error)
  }

  /** `find(..).unwrap()` */
  function FindUnwrap<T, K(==), E>(s: seq<T>, key: T -> K, k: K): Outcome<T, E> {
    var r := Find(s, key, k);
    if r.Some? then Done(r.value) else Panicked
  }

  /** The keys of a list, in order. */
  function Keys<T, K>(s: seq<T>, key: T -> K): (ks: seq<K>)
    ensures |ks| == |s| && forall i :: 0 <= i < |s| ==> ks[i] == key(s[i])
  {
    seq(|s|, i requires 0 <= i < |s| => key(s[i]))
  }

  /** `flat_map`: what each element adds, in order. */
  function FlatMap<T, U>(xs: seq<T>, f: T -> seq<U>): seq<U> {
    if xs == [] then [] else f(xs[0]) + FlatMap(xs[1..], f)
  }

  /** With distinct keys, the element found is the only one with that key. */
  lemma {:induction false} FindUnique<T, K>(s: seq<T>, key: T -> K, i: nat)
    requires i < |s| && Distinct(Keys(s, key))
    ensures Find(s, key, key(s[i])) == Some(s[i])
  {
    var ks := Keys(s, key);
    if i > 0 {
      assert ks[0] != ks[i];
      assert Keys(s[1..], key) == ks[1..];
      FindUnique(s[1..], key, i - 1);
    }
  }

  /** The position `find` stops at. */
  function FindIndex<T, K(==)>(s: seq<T>, key: T -> K, k: K): (r: Option<nat>)
    ensures r.Some? ==> r.value < |s| && key(s[r.value]) == k && Find(s, key, k) == Some(s[r.value])
    ensures r.None? ==> Find(s, key, k) == None
  {
    if s == [] then None
    else if key(s[0]) == k then Some(0)
    else
      var r := FindIndex(s[1..], key, k);
      if r.None? then None else Some(r.value + 1)
  }

  predicate Distinct<T(==)>(s: seq<T>) {
    forall i, j :: 0 <= i < j < |s| ==> s[i] != s[j]
  }

  lemma DistinctAny<T>(s: seq<T>, i: nat, j: nat)
    requires Distinct(s) && i < |s| && j < |s| && i != j
    ensures s[i] != s[j]
  {
    if i > j { assert s[j] != s[i]; }
  }

  lemma DistinctConcat<T>(a: seq<T>, b: seq<T>)
    ensures Distinct(a + b) <==>
            Distinct(a) && Distinct(b) && forall x :: x in a ==> x !in b
  {
    var s := a + b;
    if Distinct(s) {
      forall i, j | 0 <= i < j < |a| ensures a[i] != a[j] { assert s[i] != s[j]; }
      forall i, j | 0 <= i < j < |b| ensures b[i] != b[j] { assert s[|a| + i] != s[|a| + j]; }
      forall i, j | 0 <= i < |a| && 0 <= j < |b| ensures a[i] != b[j] { assert s[i] != s[|a| + j]; }
    }
    if Distinct(a) && Distinct(b) && forall x :: x in a ==> x !in b {
      forall i, j | 0 <= i < j < |s| ensures s[i] != s[j] {
        if i < |a| <= j {
          assert s[i] in a && s[j] == b[j - |a|] && s[j] in b;
        }
      }
    }
  }
}
