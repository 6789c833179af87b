/** The Range header: what the agent and the store's broker print, and what the file-storage
    controller parses (RFC 9110, section 14.1.2). */
module RangeHeader {
  import opened Basics
  import opened Text

  /** Both ends are 64-bit and inclusive. */
  datatype Range = Range(start: nat, end: nat)

  ghost predicate Fits(r: Range) { r.start < TWO64 && r.end < TWO64 }

  // ---------------------------------------------------------------- printing

  function PrintRange(r: Range): string {
    FromNat(r.start) + "-" + FromNat(r.end)
  }

  function PrintParts(ranges: seq<Range>): (parts: seq<string>)
    ensures |parts| == |ranges|
    ensures forall i :: 0 <= i < |ranges| ==> parts[i] == PrintRange(ranges[i])
  {
    if ranges == [] then [] else [PrintRange(ranges[0])] + PrintParts(ranges[1..])
  }

  function PrintHeader(ranges: seq<Range>): string {
    "bytes=" + Join(PrintParts(ranges), ", ")
  }

  // ---------------------------------------------------------------- parsing

  /** One piece between ", ": the first two fields of its split on '-' must be numbers; further
      fields are ignored. */
  function ParseRange(piece: string): (r: Option<Range>)
    ensures r.Some? ==> Fits(r.value)
  {
    var fields := Split(piece, "-");
    var start := ParseU64(fields[0]);
    if start.None? || |fields| < 2 then None
    else
      var end := ParseU64(fields[1]);
      if end.None? then None else Some(Range(start.value, end.value))
  }

  function ParsePieces(pieces: seq<string>): Option<seq<Range>> {
    if pieces == [] then Some([])
    else
      var r := ParseRange(pieces[0]);
      var rest := ParsePieces(pieces[1..]);
      if r.None? || rest.None? then None else Some([r.value] + rest.value)
  }

  ghost function Append(ranges: seq<Range>, rest: Option<seq<Range>>): Option<seq<Range>> {
    if rest.None? then None else Some(ranges + rest.value)
  }

  /** The ranges read so far with those of the pieces from the i-th on. */
  ghost function Remaining(pieces: seq<string>, i: nat, ranges: seq<Range>): Option<seq<Range>>
    requires i <= |pieces|
  {
    Append(ranges, ParsePieces(pieces[i..]))
  }

  lemma AppendMore(ranges: seq<Range>, r: Range, rest: Option<seq<Range>>)
    ensures Append(ranges + [r], rest) == if rest.None? then None else Some(ranges + ([r] + rest.value))
  {
    if rest.Some? { assert ranges + ([r] + rest.value) == ranges + [r] + rest.value; }
  }

  lemma ParseOne(pieces: seq<string>, i: nat, ranges: seq<Range>)
    requires i < |pieces|
    ensures Remaining(pieces, i, ranges) ==
            if ParseRange(pieces[i]).None? then None
            else Remaining(pieces, i + 1, ranges + [ParseRange(pieces[i]).value])
  {
    assert pieces[i..][1..] == pieces[i + 1..];
    if ParseRange(pieces[i]).Some? {
      AppendMore(ranges, ParseRange(pieces[i]).value, ParsePieces(pieces[i + 1..]));
    }
  }

  lemma RemainingEnds(pieces: seq<string>, ranges: seq<Range>)
    ensures Remaining(pieces, 0, []) == ParsePieces(pieces)
    ensures Remaining(pieces, |pieces|, ranges) == Some(ranges)
  {
    assert pieces[0..] == pieces && pieces[|pieces|..] == [];
    var all := ParsePieces(pieces);
    assert all.Some? ==> [] + all.value == all.value;
    assert ranges + [] == ranges;
  }

  /** `None` is the controller's "RANGE header is invalid". */
  function ParseHeader(header: string): Option<seq<Range>> {
    if "bytes=" <= header then ParsePieces(Split(header[6..], ", ")) else None
  }

  /** The controller's loop, with its early returns. */
  method GetRanges(header: string) returns (ranges: Option<seq<Range>>)
    ensures ranges == ParseHeader(header)
  {
    if !("bytes=" <= header) {
      return None;
    }
    var pieces := Split(header[6..], ", ");
    ranges := CollectRanges(pieces);
  }

  method CollectRanges(pieces: seq<string>) returns (ranges: Option<seq<Range>>)
    ensures ranges == ParsePieces(pieces)
  {
    var newRanges: seq<Range> := [];
    var i := 0;
    RemainingEnds(pieces, []);
    while i < |pieces|
      invariant 0 <= i <= |pieces|
      invariant ParsePieces(pieces) == Remaining(pieces, i, newRanges)
    {
      ParseOne(pieces, i, newRanges);
      var fields := Split(pieces[i], "-");
      var start := ParseU64(fields[0]);
      if start.None? {
        return None;
      }
      if |fields| < 2 {
        return None;
      }
      var end := ParseU64(fields[1]);
      if end.None? {
        return None;
      }
      newRanges := newRanges + [Range(start.value, end.value)];
      i := i + 1;
    }
    RemainingEnds(pieces, newRanges);
    return Some(newRanges);
  }

  // ---------------------------------------------------------------- round trip

  lemma DigitsAvoid(n: nat, c: char)
    requires !IsDigit(c)
    ensures c !in FromNat(n)
  {
    assert AllDigits(FromNat(n));
  }

  lemma ParsePrintedRange(r: Range)
    requires Fits(r)
    ensures ParseRange(PrintRange(r)) == Some(r)
    ensures ',' !in PrintRange(r)
  {
    var parts := [FromNat(r.start), FromNat(r.end)];
    DigitsAvoid(r.start, '-');
    DigitsAvoid(r.end, '-');
    DigitsAvoid(r.start, ',');
    DigitsAvoid(r.end, ',');
    assert Join(parts, "-") == PrintRange(r) by {
      assert Join(parts[1..], "-") == parts[1];
    }
    SplitJoin(parts, "-");
    ParsePrinted(r.start);
    ParsePrinted(r.end);
  }

  lemma {:induction false} ParsePrintedPieces(ranges: seq<Range>)
    requires forall r :: r in ranges ==> Fits(r)
    ensures ParsePieces(PrintParts(ranges)) == Some(ranges)
  {
    if ranges != [] {
      ParsePrintedRange(ranges[0]);
      ParsePrintedPieces(ranges[1..]);
      var parts := PrintParts(ranges);
      assert parts[0] == PrintRange(ranges[0]) && parts[1..] == PrintParts(ranges[1..]);
      assert [ranges[0]] + ranges[1..] == ranges;
    }
  }

  /** Parsing a printed header gives back the very list that was printed. */
  lemma HeaderRoundTrip(ranges: seq<Range>)
    requires ranges != []
    requires forall r :: r in ranges ==> Fits(r)
    ensures ParseHeader(PrintHeader(ranges)) == Some(ranges)
  {
    var parts := PrintParts(ranges);
    forall p | p in parts ensures ',' !in p {
      var i :| 0 <= i < |parts| && parts[i] == p;
      ParsePrintedRange(ranges[i]);
    }
    SplitJoin(parts, ", ");
    ParsePrintedPieces(ranges);
    assert PrintHeader(ranges)[6..] == Join(parts, ", ");
  }

  /** No header at all parses to the empty list: an accepted header names at least one range. */
  lemma AcceptedIsNonEmpty(header: string)
    ensures ParseHeader(header) != Some([])
  {
    if "bytes=" <= header {
      var pieces := Split(header[6..], ", ");
      assert ParsePieces(pieces).Some? ==> |ParsePieces(pieces).value| > 0;
    }
  }

  // ---------------------------------------------------------------- what is refused

  /** A 64-bit number as it may be written: digits, perhaps after one '+'. */
  predicate Numeral(s: string, n: nat) {
    var digits := if "+" <= s then s[1..] else s;
    digits != "" && AllDigits(digits) && ValueOf(digits) == n && n < TWO64
  }

  /** A piece read as two numbers: each up to a '-', and whatever follows a second '-'. */
  predicate Cuts(piece: string, a: string, b: string, rest: string) {
    piece == a + "-" + b + rest && (rest == "" || rest[0] == '-')
  }

  ghost predicate Reads(piece: string, r: Range) {
    exists a, b, rest :: Cuts(piece, a, b, rest) && Numeral(a, r.start) && Numeral(b, r.end)
  }

  lemma NumeralParses(s: string, n: nat)
    ensures Numeral(s, n) <==> ParseU64(s) == Some(n)
    ensures Numeral(s, n) ==> '-' !in s
  {
    assert "+" <= s <==> s != "" && s[0] == '+';
    if "+" <= s { assert s == "+" + s[1..]; }
  }

  /** The field before the first '-'. */
  lemma FirstField(a: string, rest: string)
    requires '-' !in a && (rest == "" || rest[0] == '-')
    ensures Split(a + rest, "-")[0] == a
    ensures rest != "" ==> Split(a + rest, "-")[1..] == Split(rest[1..], "-")
  {
    if rest == "" {
      assert a + rest == a;
      NoIndexInPlain(a, "-");
    } else {
      assert a + rest == a + "-" + rest[1..];
      IndexAfterPlain(a, "-", rest[1..]);
      assert (a + rest)[..|a|] == a && (a + rest)[|a| + 1..] == rest[1..];
    }
  }

  /** The second field, between the first '-' and the second. */
  lemma SecondField(piece: string, a: string, b: string, rest: string)
    requires Cuts(piece, a, b, rest) && '-' !in a && '-' !in b
    ensures var fields := Split(piece, "-"); |fields| >= 2 && fields[0] == a && fields[1] == b
  {
    assert piece == a + ("-" + b + rest);
    assert ("-" + b + rest)[1..] == b + rest;
    FirstField(a, "-" + b + rest);
    FirstField(b, rest);
  }

  lemma FieldsCut(piece: string) returns (rest: string)
    requires |Split(piece, "-")| >= 2
    ensures Cuts(piece, Split(piece, "-")[0], Split(piece, "-")[1], rest)
  {
    var a, tail := Before(piece, "-"), After(piece, "-");
    FieldAndRest(tail);
    var b := Split(tail, "-")[0];
    CutsAt(piece, a, tail, b);
    rest := tail[|b|..];
    assert Split(piece, "-") == [a] + Split(tail, "-");
  }

  lemma FieldAndRest(tail: string)
    ensures var b := Split(tail, "-")[0]; b <= tail && (b == tail || tail[|b|] == '-')
  {
    if IndexOf(tail, "-").Some? { assert "-" <= tail[IndexOf(tail, "-").value..]; }
  }

  lemma CutsAt(piece: string, a: string, tail: string, b: string)
    requires IndexOf(piece, "-").Some? && a == Before(piece, "-") && tail == After(piece, "-")
    requires b <= tail && (b == tail || tail[|b|] == '-')
    ensures Cuts(piece, a, b, tail[|b|..])
  {
    assert piece[|a|..][..1] == "-";
    assert piece == a + "-" + tail;
    Regroup(a + "-", b, tail);
  }

  lemma Regroup(front: string, b: string, tail: string)
    requires b <= tail
    ensures front + b + tail[|b|..] == front + tail
  {
    assert tail == b + tail[|b|..];
  }

  lemma PieceReads(piece: string, r: Range)
    ensures Reads(piece, r) <==> ParseRange(piece) == Some(r)
  {
    var fields := Split(piece, "-");
    if Reads(piece, r) {
      var a, b, rest :| Cuts(piece, a, b, rest) && Numeral(a, r.start) && Numeral(b, r.end);
      NumeralParses(a, r.start);
      NumeralParses(b, r.end);
      SecondField(piece, a, b, rest);
    }
    if ParseRange(piece) == Some(r) {
      NumeralParses(fields[0], r.start);
      NumeralParses(fields[1], r.end);
      var rest := FieldsCut(piece);
    }
  }

  lemma {:induction false} PiecesRead(pieces: seq<string>, ranges: seq<Range>)
    ensures ParsePieces(pieces) == Some(ranges) <==>
            |ranges| == |pieces| && forall k :: 0 <= k < |pieces| ==> ParseRange(pieces[k]) == Some(ranges[k])
  {
    if pieces != [] && ranges != [] {
      PiecesRead(pieces[1..], ranges[1..]);
      assert ranges == [ranges[0]] + ranges[1..];
      assert forall k :: 1 <= k < |pieces| ==> pieces[k] == pieces[1..][k - 1];
      assert forall k :: 1 <= k < |ranges| ==> ranges[k] == ranges[1..][k - 1];
    }
  }

  /** A header is read as a list of ranges exactly when it starts with "bytes=" and each piece between ", "
      reads as the range of its position. */
  lemma AcceptedExactly(header: string, ranges: seq<Range>)
    ensures ParseHeader(header) == Some(ranges) <==>
            && "bytes=" <= header
            && |ranges| == |Split(header[6..], ", ")|
            && forall k :: 0 <= k < |ranges| ==> Reads(Split(header[6..], ", ")[k], ranges[k])
  {
    if "bytes=" <= header {
      var pieces := Split(header[6..], ", ");
      PiecesRead(pieces, ranges);
      forall k | 0 <= k < |ranges| && k < |pieces|
        ensures Reads(pieces[k], ranges[k]) <==> ParseRange(pieces[k]) == Some(ranges[k])
      {
        PieceReads(pieces[k], ranges[k]);
      }
    }
  }

  lemma {:induction false} PiecesFail(pieces: seq<string>)
    ensures ParsePieces(pieces).None? <==> exists k :: 0 <= k < |pieces| && ParseRange(pieces[k]).None?
  {
    if pieces != [] {
      PiecesFail(pieces[1..]);
      assert forall k :: 1 <= k < |pieces| ==> pieces[k] == pieces[1..][k - 1];
      if exists k :: 0 <= k < |pieces[1..]| && ParseRange(pieces[1..][k]).None? {
        var k :| 0 <= k < |pieces[1..]| && ParseRange(pieces[1..][k]).None?;
        assert pieces[k + 1] == pieces[1..][k];
      }
    }
  }

  /** A header is refused exactly when "bytes=" does not begin it or some piece reads as no range. */
  lemma RefusedExactly(header: string)
    ensures ParseHeader(header).None? <==>
            || !("bytes=" <= header)
            || exists k :: 0 <= k < |Split(header[6..], ", ")| && Unread(Split(header[6..], ", ")[k])
  {
    if "bytes=" <= header {
      var pieces := Split(header[6..], ", ");
      PiecesFail(pieces);
      forall k | 0 <= k < |pieces| ensures ParseRange(pieces[k]).None? <==> Unread(pieces[k]) {
        PieceRefused(pieces[k]);
      }
      if ParsePieces(pieces).None? {
        var k :| 0 <= k < |pieces| && ParseRange(pieces[k]).None?;
        assert Unread(pieces[k]);
      }
    }
  }

  ghost predicate Unread(piece: string) {
    forall r :: !Reads(piece, r)
  }

  lemma PieceRefused(piece: string)
    ensures ParseRange(piece).None? <==> Unread(piece)
  {
    var parsed := ParseRange(piece);
    if parsed.Some? {
      PieceReads(piece, parsed.value);
    } else {
      forall r ensures !Reads(piece, r) { PieceReads(piece, r); }
    }
  }

  /** An open end is one such piece. */
  lemma OpenEndRefused()
    ensures ParseHeader("bytes=500-").None?
  {
    assert "bytes=500-"[6..] == "500-";
    NoIndexInPlain("500-", ", ");
    SecondField("500-", "500", "", "");
  }
}
