/** The text operations the services rely on: first occurrence, `split`, `replace`, `join`,
    and the decimal printing and parsing of integers. */
module Text {
  import opened Basics

  const TWO64: nat := 0x1_0000_0000_0000_0000

  // ---------------------------------------------------------------- searching and splitting

  /** The position of the first occurrence of `pat` in `s`. */
  function IndexOf(s: string, pat: string): (r: Option<nat>)
    ensures r.Some? ==> r.value + |pat| <= |s| && pat <= s[r.value..]
  {
    if pat <= s then Some(0)
    else if s == "" then None
    else
      var r := IndexOf(s[1..], pat);
      if r.Some? then Some(r.value + 1) else None
  }

  /** It is the first: no occurrence starts before it. */
  lemma {:induction false} IndexIsFirst(s: string, pat: string, i: nat)
    requires i <= |s| && pat <= s[i..] && forall j :: 0 <= j < i ==> !(pat <= s[j..])
    ensures IndexOf(s, pat) == Some(i)
  {
    assert s[0..] == s;
    if i > 0 {
      assert s[1..][i - 1..] == s[i..];
      forall j | 0 <= j < i - 1 ensures !(pat <= s[1..][j..]) { assert s[1..][j..] == s[j + 1..]; }
      IndexIsFirst(s[1..], pat, i - 1);
    }
  }

  lemma {:induction false} NoIndexAt(s: string, pat: string, j: nat)
    requires IndexOf(s, pat).None? && j <= |s|
    ensures !(pat <= s[j..])
  {
    if j == 0 {
      assert s[0..] == s;
    } else {
      NoIndexAt(s[1..], pat, j - 1);
      assert s[1..][j - 1..] == s[j..];
    }
  }

  lemma NoIndexNowhere(s: string, pat: string)
    ensures IndexOf(s, pat).None? <==> forall j :: 0 <= j <= |s| ==> !(pat <= s[j..])
  {
    if IndexOf(s, pat).None? {
      forall j | 0 <= j <= |s| ensures !(pat <= s[j..]) { NoIndexAt(s, pat, j); }
    } else {
      assert pat <= s[IndexOf(s, pat).value..];
    }
  }

  /** No occurrence starts inside text that avoids the first character of the pattern. */
  lemma {:induction false} IndexAfterPlain(x: string, pat: string, rest: string)
    requires pat != "" && pat[0] !in x
    ensures IndexOf(x + pat + rest, pat) == Some(|x|)
  {
    var s := x + pat + rest;
    if x == "" {
      assert s == pat + rest;
    } else {
      assert s[0] == x[0];
      assert s[1..] == x[1..] + pat + rest;
      IndexAfterPlain(x[1..], pat, rest);
    }
  }

  lemma {:induction false} NoIndexInPlain(x: string, pat: string)
    requires pat != "" && pat[0] !in x
    ensures IndexOf(x, pat) == None
  {
    if x != "" {
      NoIndexInPlain(x[1..], pat);
    }
  }

  function Before(s: string, pat: string): string
    requires IndexOf(s, pat).Some?
  {
    s[..IndexOf(s, pat).value]
  }

  function After(s: string, pat: string): (rest: string)
    requires IndexOf(s, pat).Some?
    ensures |rest| + |pat| <= |s|
  {
    s[IndexOf(s, pat).value + |pat|..]
  }

  function Split(s: string, pat: string): (parts: seq<string>)
    requires pat != ""
    ensures |parts| > 0
    decreases |s|
  {
    if IndexOf(s, pat).None? then [s] else [Before(s, pat)] + Split(After(s, pat), pat)
  }

  function Join(parts: seq<string>, sep: string): string {
    if parts == [] then ""
    else if |parts| == 1 then parts[0]
    else parts[0] + sep + Join(parts[1..], sep)
  }

  lemma {:induction false} FirstIndex(s: string, pat: string, j: nat)
    requires IndexOf(s, pat).Some? && j < IndexOf(s, pat).value
    ensures !(pat <= s[j..])
  {
    if j == 0 {
      assert s[0..] == s;
    } else {
      FirstIndex(s[1..], pat, j - 1);
      assert s[1..][j - 1..] == s[j..];
    }
  }

  lemma BeforeIsClear(s: string, pat: string)
    requires pat != "" && IndexOf(s, pat).Some?
    ensures IndexOf(Before(s, pat), pat).None?
  {
    var x := Before(s, pat);
    NoIndexNowhere(x, pat);
    forall j | 0 <= j <= |x| ensures !(pat <= x[j..]) {
      if pat <= x[j..] {
        PrefixOccurs(s, |x|, pat, j);
        FirstIndex(s, pat, j);
      }
    }
  }

  lemma PrefixOccurs(s: string, i: nat, pat: string, j: nat)
    requires j <= i <= |s| && pat != "" && pat <= s[..i][j..]
    ensures pat <= s[j..] && j < i
  {
    assert s[j..][..i - j] == s[..i][j..];
    assert pat == s[..i][j..][..|pat|];
  }

  /** Splitting undoes joining when no part contains the first character of the separator. */
  lemma {:induction false} SplitJoin(parts: seq<string>, sep: string)
    requires sep != "" && parts != []
    requires forall p :: p in parts ==> sep[0] !in p
    ensures Split(Join(parts, sep), sep) == parts
  {
    var head := parts[0];
    if |parts| == 1 {
      NoIndexInPlain(head, sep);
    } else {
      var rest := Join(parts[1..], sep);
      var s := head + sep + rest;
      IndexAfterPlain(head, sep, rest);
      assert s[..|head|] == head;
      assert s[|head| + |sep|..] == rest;
      SplitJoin(parts[1..], sep);
    }
  }

  // ---------------------------------------------------------------- replacing

  /** `str::replace`: every match from left to right, without overlaps. The empty pattern matches at
      every character boundary. */
  function Replace(s: string, pat: string, fill: string): string
    decreases |s|
  {
    if pat == "" then
      if s == "" then fill else fill + [s[0]] + Replace(s[1..], pat, fill)
    else
      if IndexOf(s, pat).None? then s else Before(s, pat) + fill + Replace(After(s, pat), pat, fill)
  }

  /** What a replacement leaves standing. */
  function Pieces(s: string, pat: string): (parts: seq<string>)
    ensures |parts| > 0
  {
    if pat == "" then [""] + Singles(s) else Split(s, pat)
  }

  function Singles(s: string): (parts: seq<string>)
    ensures |parts| == |s| + 1
  {
    if s == "" then [""] else [[s[0]]] + Singles(s[1..])
  }

  predicate Occurs(s: string, pat: string) {
    pat == "" || IndexOf(s, pat).Some?
  }

  lemma {:induction false} SinglesJoin(s: string, fill: string)
    ensures fill + Join(Singles(s), fill) == Replace(s, "", fill)
  {
    if s != "" {
      SinglesJoin(s[1..], fill);
      assert Join(Singles(s), fill) == [s[0]] + fill + Join(Singles(s[1..]), fill);
      assert fill + ([s[0]] + fill + Join(Singles(s[1..]), fill)) ==
             fill + [s[0]] + (fill + Join(Singles(s[1..]), fill));
    } else {
      assert fill + "" == fill;
    }
  }

  lemma JoinCons(first: string, rest: seq<string>, fill: string)
    requires rest != []
    ensures Join([first] + rest, fill) == first + fill + Join(rest, fill)
  {
    assert ([first] + rest)[1..] == rest;
  }

  /** Joining undoes splitting, and no part holds the separator. */
  lemma {:induction false} SplitParts(s: string, pat: string)
    requires pat != ""
    ensures Join(Split(s, pat), pat) == s
    ensures forall p :: p in Split(s, pat) ==> IndexOf(p, pat).None?
    decreases |s|
  {
    if IndexOf(s, pat).Some? {
      var rest := After(s, pat);
      SplitParts(rest, pat);
      BeforeIsClear(s, pat);
      JoinCons(Before(s, pat), Split(rest, pat), pat);
      assert s == Before(s, pat) + pat + rest;
    }
  }

  lemma {:induction false} SplitIsJoin(s: string, pat: string, fill: string)
    requires pat != ""
    ensures Replace(s, pat, fill) == Join(Split(s, pat), fill)
    decreases |s|
  {
    if IndexOf(s, pat).Some? {
      SplitIsJoin(After(s, pat), pat, fill);
      JoinCons(Before(s, pat), Split(After(s, pat), pat), fill);
    }
  }

  /** A replacement is the pieces joined by the new text. */
  lemma ReplaceIsJoin(s: string, pat: string, fill: string)
    ensures Replace(s, pat, fill) == Join(Pieces(s, pat), fill)
  {
    if pat == "" {
      SinglesJoin(s, fill);
      JoinCons("", Singles(s), fill);
      assert "" + fill == fill;
    } else {
      SplitIsJoin(s, pat, fill);
    }
  }

  function TotalLength(parts: seq<string>): nat {
    if parts == [] then 0 else |parts[0]| + TotalLength(parts[1..])
  }

  lemma {:induction false} JoinLength(parts: seq<string>, fill: string)
    requires parts != []
    ensures |Join(parts, fill)| == TotalLength(parts) + (|parts| - 1) * |fill|
  {
    if |parts| > 1 {
      JoinLength(parts[1..], fill);
      assert (|parts| - 1) * |fill| == (|parts| - 2) * |fill| + |fill|;
    } else {
      assert TotalLength(parts[1..]) == 0;
    }
  }

  lemma MulCancel(n: nat, a: nat, b: nat)
    requires n > 0 && n * a == n * b
    ensures a == b
  {
    assert n * (b - a) == 0;
  }

  /** Where the pattern occurs, different replacements give different texts. */
  lemma ReplaceInjective(s: string, pat: string, a: string, b: string)
    requires Occurs(s, pat) && Replace(s, pat, a) == Replace(s, pat, b)
    ensures a == b
  {
    var parts := Pieces(s, pat);
    ReplaceIsJoin(s, pat, a);
    ReplaceIsJoin(s, pat, b);
    JoinLength(parts, a);
    JoinLength(parts, b);
    MulCancel(|parts| - 1, |a|, |b|);
    var head := parts[0];
    assert Join(parts, a)[|head|..|head| + |a|] == a;
    assert Join(parts, b)[|head|..|head| + |b|] == b;
  }

  // ---------------------------------------------------------------- decimal numbers

  predicate IsDigit(c: char) { '0' <= c <= '9' }

  predicate AllDigits(s: string) { forall i :: 0 <= i < |s| ==> IsDigit(s[i]) }

  function DigitChar(d: nat): (c: char)
    requires d < 10
    ensures IsDigit(c) && DigitValue(c) == d
  {
    '0' + d as char
  }

  function DigitValue(c: char): (d: nat)
    requires IsDigit(c)
    ensures d < 10
  {
    (c - '0') as nat
  }

  function FromNat(n: nat): (s: string)
    ensures s != "" && AllDigits(s)
  {
    if n < 10 then [DigitChar(n)] else FromNat(n / 10) + [DigitChar(n % 10)]
  }

  function ValueOf(s: string): nat
    requires AllDigits(s)
  {
    if s == "" then 0 else 10 * ValueOf(s[..|s| - 1]) + DigitValue(s[|s| - 1])
  }

  lemma {:induction false} ValueOfFromNat(n: nat)
    ensures ValueOf(FromNat(n)) == n
  {
    var s := FromNat(n);
    if n < 10 {
      assert s[..0] == "";
    } else {
      ValueOfFromNat(n / 10);
      assert s[..|s| - 1] == FromNat(n / 10);
    }
  }

  /** `to_string` on a signed integer. */
  function FromInt(i: int): (s: string)
    ensures s != ""
  {
    if i < 0 then "-" + FromNat(-i) else FromNat(i)
  }

  lemma SignShows(i: int)
    ensures FromInt(i)[0] == '-' <==> i < 0
  {
    assert i >= 0 ==> IsDigit(FromNat(i)[0]);
  }

  lemma {:induction false} FromNatInjective(m: nat, n: nat)
    requires FromNat(m) == FromNat(n)
    ensures m == n
  {
    ValueOfFromNat(m);
    ValueOfFromNat(n);
  }

  lemma NegativeDigits(i: int)
    requires i < 0
    ensures FromInt(i)[1..] == FromNat(-i)
  {
  }

  lemma FromIntInjective(i: int, j: int)
    requires FromInt(i) == FromInt(j)
    ensures i == j
  {
    SignShows(i);
    SignShows(j);
    if i < 0 && j < 0 {
      NegativeDigits(i);
      NegativeDigits(j);
      FromNatInjective(-i, -j);
    } else if i >= 0 && j >= 0 {
      FromNatInjective(i, j);
    }
  }

  /** `u64::from_str`: one optional leading '+', then at least one digit and nothing else, and the
      value must fit in 64 bits. */
  function ParseU64(s: string): (r: Option<nat>)
    ensures r.Some? ==> r.value < TWO64
  {
    var digits := if s != "" && s[0] == '+' then s[1..] else s;
    if digits != "" && AllDigits(digits) && ValueOf(digits) < TWO64 then Some(ValueOf(digits)) else None
  }

  lemma ParsePrinted(n: nat)
    requires n < TWO64
    ensures ParseU64(FromNat(n)) == Some(n)
  {
    ValueOfFromNat(n);
    assert IsDigit(FromNat(n)[0]);
  }
}
