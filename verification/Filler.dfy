/** Filling a batch input: one template text, and a number that counts up from text to text. */
module Filler {
  import opened Text

  const TWO31: int := 0x8000_0000
  const TWO32: int := 0x1_0000_0000

  /** The value a 32-bit signed addition leaves when overflow wraps. */
  function Wrap(x: int): (r: int)
    ensures -TWO31 <= r < TWO31
    ensures -TWO31 <= x < TWO31 ==> r == x
  {
    (x + TWO31) % TWO32 - TWO31
  }

  /** The number filled into the i-th text. */
  function Current(start: int, step: int, i: nat): int {
    Wrap(start + i * step)
  }

  lemma NextCurrent(start: int, step: int, i: nat)
    ensures Wrap(Current(start, step, i) + step) == Current(start, step, i + 1)
  {
    var x := start + i * step;
    assert start + (i + 1) * step == x + step;
    var q := (x + TWO31) / TWO32;
    assert x + TWO31 == q * TWO32 + (x + TWO31) % TWO32;
    WrapShift(x + step, q);
  }

  lemma WrapShift(x: int, q: int)
    ensures Wrap(x - q * TWO32) == Wrap(x)
  {
    ModShift(x + TWO31, q);
  }

  lemma ModShift(x: int, q: int)
    ensures (x - q * TWO32) % TWO32 == x % TWO32
  {
    var d, r := x / TWO32, x % TWO32;
    var y := x - q * TWO32;
    assert y == (d - q) * TWO32 + r;
    var e := y / TWO32;
    assert y == e * TWO32 + y % TWO32;
    assert (e - (d - q)) * TWO32 == r - y % TWO32;
  }

  /** The first text is filled with `start`; the next number is the 32-bit integer that agrees with the last
      one plus `step` modulo 2^32, and is that very sum where it is in range. */
  lemma NumbersCount(start: int, step: int, i: nat)
    requires -TWO31 <= start < TWO31
    ensures Current(start, step, 0) == start
    ensures var sum, next := Current(start, step, i) + step, Current(start, step, i + 1);
            && -TWO31 <= next < TWO31 && (sum - next) % TWO32 == 0
            && (-TWO31 <= sum < TWO31 ==> next == sum)
  {
    NextCurrent(start, step, i);
    var sum := Current(start, step, i) + step;
    WrapEqual(sum, Wrap(sum));
    WrapEqual(Wrap(sum), sum);
  }

  /** `fill_match_regex` with an AutoNumber filler; the pattern is replaced literally. */
  method FillMatchRegex(content: string, pattern: string, fillCount: nat, start: int, step: int)
    returns (texts: seq<string>)
    requires -TWO31 <= start < TWO31 && -TWO31 <= step < TWO31
    ensures |texts| == fillCount
    ensures forall i :: 0 <= i < fillCount ==> texts[i] == Replace(content, pattern, FromInt(Current(start, step, i)))
  {
    texts := seq(fillCount, i => content);
    var current := start;
    for k := 0 to fillCount
      invariant |texts| == fillCount && current == Current(start, step, k)
      invariant forall i :: 0 <= i < k ==> texts[i] == Replace(content, pattern, FromInt(Current(start, step, i)))
      invariant forall i :: k <= i < fillCount ==> texts[i] == content
    {
      texts := texts[k := Replace(texts[k], pattern, FromInt(current))];
      NextCurrent(start, step, k);
      current := Wrap(current + step);
    }
  }

  lemma WrapEqual(x: int, y: int)
    ensures Wrap(x) == Wrap(y) <==> (y - x) % TWO32 == 0
  {
    var a, b := x + TWO31, y + TWO31;
    var p, q := a / TWO32, b / TWO32;
    assert a == p * TWO32 + a % TWO32 && b == q * TWO32 + b % TWO32;
    if a % TWO32 == b % TWO32 {
      assert y - x == (q - p) * TWO32;
      ModShift(y - x, q - p);
    }
    if (y - x) % TWO32 == 0 {
      var d := (y - x) / TWO32;
      assert a == b - d * TWO32;
      ModShift(b, d);
    }
  }

  lemma FilledEqual(content: string, pattern: string, x: int, y: int)
    ensures Replace(content, pattern, FromInt(Wrap(x))) == Replace(content, pattern, FromInt(Wrap(y)))
            <==> !Occurs(content, pattern) || (y - x) % TWO32 == 0
  {
    WrapEqual(x, y);
    if Occurs(content, pattern)
      && Replace(content, pattern, FromInt(Wrap(x))) == Replace(content, pattern, FromInt(Wrap(y))) {
      ReplaceInjective(content, pattern, FromInt(Wrap(x)), FromInt(Wrap(y)));
      FromIntInjective(Wrap(x), Wrap(y));
    }
  }

  /** Two filled texts are equal exactly when the pattern does not occur at all, or their numbers have
      wrapped around to the same value. */
  lemma TextsEqualExactly(content: string, pattern: string, start: int, step: int, i: nat, j: nat)
    ensures Replace(content, pattern, FromInt(Current(start, step, i))) ==
            Replace(content, pattern, FromInt(Current(start, step, j)))
            <==> !Occurs(content, pattern) || ((j - i) * step) % TWO32 == 0
  {
    assert (start + j * step) - (start + i * step) == (j - i) * step;
    FilledEqual(content, pattern, start + i * step, start + j * step);
  }

  lemma NotAMultiple(d: int)
    requires d != 0 && -TWO32 < d < TWO32
    ensures d % TWO32 != 0
  {
  }

  /** While the numbers stay in range and step is not zero, all texts of a batch differ. */
  lemma TextsDistinct(content: string, pattern: string, start: int, step: int, count: nat, i: nat, j: nat)
    requires Occurs(content, pattern) && step != 0 && i < j < count
    requires -TWO31 <= start < TWO31 && -TWO31 <= start + count * step < TWO31
    ensures Replace(content, pattern, FromInt(Current(start, step, i))) !=
            Replace(content, pattern, FromInt(Current(start, step, j)))
  {
    TextsEqualExactly(content, pattern, start, step, i, j);
    var d := (j - i) * step;
    InRange(j - i, count, step);
    NotAMultiple(d);
  }

  lemma InRange(k: int, count: nat, step: int)
    requires 0 < k <= count && step != 0
    requires -TWO32 < count * step < TWO32
    ensures k * step != 0 && -TWO32 < k * step < TWO32
  {
    var size := if step > 0 then step else -step;
    Multiples(1, k, size);
    Multiples(k, count, size);
    assert k * step == k * size || k * step == -(k * size);
    assert count * step == count * size || count * step == -(count * size);
  }

  lemma {:induction false} Multiples(k: nat, n: nat, x: nat)
    requires k <= n
    ensures k * x <= n * x
  {
    if k < n {
      Multiples(k, n - 1, x);
      assert n * x == (n - 1) * x + x;
    }
  }
}
