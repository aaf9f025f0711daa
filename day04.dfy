/** Day 4: pairs of section assignments. Every line lists inclusive ranges
    `a-b`, separated by commas; part 1 counts the lines whose first two ranges
    contain one another, part 2 the lines whose first two ranges overlap. */
module Day04 {
  import opened Common
  import opened Text

  /** `RangeInclusive<i64>`: all x with start <= x <= end (empty when
      start > end). */
  datatype Range = Range(start: int, end: int)

  predicate InRange(x: int, r: Range)
  {
    r.start <= x <= r.end
  }

  /** `contains(fst, snd)` */
  predicate Contains(fst: Range, snd: Range)
  {
    fst.start <= snd.start && fst.end >= snd.end
  }

  /** `overlaps(fst, snd)` */
  predicate Overlaps(fst: Range, snd: Range)
  {
    fst.start <= snd.end && fst.end >= snd.start
  }

  /** On a non-empty second range, `contains` means every section of the second
      range is a section of the first. */
  lemma ContainsMeansSubset(fst: Range, snd: Range)
    requires snd.start <= snd.end
    ensures Contains(fst, snd) <==> forall x :: InRange(x, snd) ==> InRange(x, fst)
  {
    if forall x :: InRange(x, snd) ==> InRange(x, fst) {
      assert InRange(snd.start, snd) && InRange(snd.end, snd);
    }
  }

  /** On non-empty ranges, `overlaps` means there is a section in both. */
  lemma OverlapsMeansSharedSection(fst: Range, snd: Range)
    requires fst.start <= fst.end && snd.start <= snd.end
    ensures Overlaps(fst, snd) <==> exists x :: InRange(x, fst) && InRange(x, snd)
  {
    if Overlaps(fst, snd) {
      var x := if fst.start <= snd.start then snd.start else fst.start;
      assert InRange(x, fst) && InRange(x, snd);
    }
  }

  lemma ContainsReflexive(r: Range)
    ensures Contains(r, r)
  {
  }

  lemma OverlapsSymmetric(fst: Range, snd: Range)
    ensures Overlaps(fst, snd) <==> Overlaps(snd, fst)
  {
  }

  /** A range that contains a non-empty range overlaps it. */
  lemma ContainsImpliesOverlaps(fst: Range, snd: Range)
    requires snd.start <= snd.end
    requires Contains(fst, snd)
    ensures Overlaps(fst, snd)
  {
  }

  /** `range.split('-')`: the first two pieces must parse as `i64`; a missing
      piece or a parse error panics (`None`). */
  function ParseRange(s: string): (r: Option<Range>)
    ensures r.Some? ==> var pieces := SplitOn(s, "-");
                        |pieces| >= 2 && ParseInt(pieces[0]) == Some(r.value.start)
                        && ParseInt(pieces[1]) == Some(r.value.end)
  {
    var pieces := SplitOn(s, "-");
    if |pieces| < 2 then None
    else
      match ParseInt(pieces[0])
      case None => None
      case Some(start) =>
        match ParseInt(pieces[1])
        case None => None
        case Some(end) => Some(Range(start, end))
  }

  function ParseRanges(parts: seq<string>): (r: Option<seq<Range>>)
    ensures r.Some? ==> |r.value| == |parts|
    ensures r.Some? ==> forall i :: 0 <= i < |parts| ==> ParseRange(parts[i]) == Some(r.value[i])
    ensures r.None? ==> exists i :: 0 <= i < |parts| && ParseRange(parts[i]).None?
  {
    if parts == [] then Some([])
    else
      match ParseRange(parts[0])
      case None => None
      case Some(range) =>
        match ParseRanges(parts[1..])
        case None => None
        case Some(rest) => Some([range] + rest)
  }

  /** One line: the ranges between commas (at least one, as `split` always
      yields a piece). */
  function ParseLine(line: string): (r: Option<seq<Range>>)
    ensures r.Some? ==> |r.value| == |SplitOn(line, ",")| >= 1
  {
    ParseRanges(SplitOn(line, ","))
  }

  function ParseLines(lines: seq<string>): (r: Option<seq<seq<Range>>>)
    ensures r.Some? ==> |r.value| == |lines|
    ensures r.Some? ==> forall i :: 0 <= i < |lines| ==> ParseLine(lines[i]) == Some(r.value[i])
    ensures r.None? ==> exists i :: 0 <= i < |lines| && ParseLine(lines[i]).None?
  {
    if lines == [] then Some([])
    else
      match ParseLine(lines[0])
      case None => None
      case Some(ranges) =>
        match ParseLines(lines[1..])
        case None => None
        case Some(rest) => Some([ranges] + rest)
  }

  /** `parse_input` over the text's lines. */
  function ParseInput(text: string): Option<seq<seq<Range>>>
  {
    ParseLines(Lines(text))
  }

  lemma NotInNumeral(n: nat, c: char)
    requires !IsDigit(c)
    ensures c !in ShowNat(n)
  {
    var s := ShowNat(n);
    assert forall i :: 0 <= i < |s| ==> IsDigit(s[i]);
  }

  /** A line of the form `a-b,c-d` (with non-negative numbers) reads as the two
      ranges it spells. */
  lemma ParsePairLine(a: nat, b: nat, c: nat, d: nat)
    ensures ParseLine(ShowNat(a) + "-" + ShowNat(b) + "," + ShowNat(c) + "-" + ShowNat(d))
            == Some([Range(a, b), Range(c, d)])
  {
    var fst, snd := ShowNat(a) + "-" + ShowNat(b), ShowNat(c) + "-" + ShowNat(d);
    assert ',' !in fst && ',' !in snd by {
      NotInNumeral(a, ',');
      NotInNumeral(b, ',');
      NotInNumeral(c, ',');
      NotInNumeral(d, ',');
    }
    var line := ShowNat(a) + "-" + ShowNat(b) + "," + ShowNat(c) + "-" + ShowNat(d);
    assert line == fst + "," + snd;
    assert fst + "," + snd == Join([fst, snd], [',']);
    SplitJoin([fst, snd], ",");
    assert "," == [','];
    assert SplitOn(line, ",") == [fst, snd];
    ParseRangeOfNumbers(a, b);
    ParseRangeOfNumbers(c, d);
    ParseRangesCons(snd, [], Range(c, d), []);
    assert [snd] + [] == [snd] && [Range(c, d)] + [] == [Range(c, d)];
    ParseRangesCons(fst, [snd], Range(a, b), [Range(c, d)]);
    assert [fst] + [snd] == [fst, snd] && [Range(a, b)] + [Range(c, d)] == [Range(a, b), Range(c, d)];
  }

  lemma ParseRangesCons(part: string, parts: seq<string>, range: Range, ranges: seq<Range>)
    requires ParseRange(part) == Some(range) && ParseRanges(parts) == Some(ranges)
    ensures ParseRanges([part] + parts) == Some([range] + ranges)
  {
    assert ([part] + parts)[0] == part;
    assert ([part] + parts)[1..] == parts;
  }

  lemma ParseRangeOfNumbers(a: nat, b: nat)
    ensures ParseRange(ShowNat(a) + "-" + ShowNat(b)) == Some(Range(a, b))
  {
    var sa, sb := ShowNat(a), ShowNat(b);
    NotInNumeral(a, '-');
    NotInNumeral(b, '-');
    assert sa + "-" + sb == Join([sa, sb], ['-']);
    SplitJoin([sa, sb], "-");
    assert "-" == ['-'];
    ParseShowInt(a);
    ParseShowInt(b);
  }

  /** Every line lists at least two ranges, so that `v[0]` and `v[1]` exist. */
  predicate AllPairs(pairs: seq<seq<Range>>)
  {
    forall i :: 0 <= i < |pairs| ==> |pairs[i]| >= 2
  }

  /** The pairs part 1 counts: either of the first two ranges contains the
      other. */
  predicate FullyContained(pair: seq<Range>)
    requires |pair| >= 2
  {
    Contains(pair[0], pair[1]) || Contains(pair[1], pair[0])
  }

  /** `solve_first`: the filter indexes `v[0]` and `v[1]` of every line, so a
      line with fewer than two ranges panics (`None`). */
  function SolveFirst(pairs: seq<seq<Range>>): (r: Option<nat>)
    ensures r.Some? <==> AllPairs(pairs)
    ensures r.Some? ==> r.value <= |pairs|
    ensures r.Some? ==> (r.value == |pairs| <==> forall i :: 0 <= i < |pairs| ==> FullyContained(pairs[i]))
    ensures r.Some? ==> (r.value == 0 <==> forall i :: 0 <= i < |pairs| ==> !FullyContained(pairs[i]))
  {
    if pairs == [] then Some(0)
    else if |pairs[0]| < 2 then None
    else
      var rest := SolveFirst(pairs[1..]);
      assert forall i :: 1 <= i < |pairs| ==> pairs[i] == pairs[1..][i - 1];
      match rest
      case None => None
      case Some(n) => Some((if FullyContained(pairs[0]) then 1 else 0) + n)
  }

  /** `solve_second`, which panics (`None`) on the same lines. */
  function SolveSecond(pairs: seq<seq<Range>>): (r: Option<nat>)
    ensures r.Some? <==> AllPairs(pairs)
    ensures r.Some? ==> r.value <= |pairs|
    ensures r.Some? ==> (r.value == |pairs| <==> forall i :: 0 <= i < |pairs| ==> Overlaps(pairs[i][0], pairs[i][1]))
    ensures r.Some? ==> (r.value == 0 <==> forall i :: 0 <= i < |pairs| ==> !Overlaps(pairs[i][0], pairs[i][1]))
  {
    if pairs == [] then Some(0)
    else if |pairs[0]| < 2 then None
    else
      var rest := SolveSecond(pairs[1..]);
      assert forall i :: 1 <= i < |pairs| ==> pairs[i] == pairs[1..][i - 1];
      match rest
      case None => None
      case Some(n) => Some((if Overlaps(pairs[0][0], pairs[0][1]) then 1 else 0) + n)
  }

  /** A line holding one range `a-b` parses: the parser does not ask for a
      second range. */
  lemma ParseSingleRangeLine(a: nat, b: nat)
    ensures ParseLine(ShowNat(a) + "-" + ShowNat(b)) == Some([Range(a, b)])
  {
    var line := ShowNat(a) + "-" + ShowNat(b);
    assert ',' !in line by {
      NotInNumeral(a, ',');
      NotInNumeral(b, ',');
    }
    SplitJoin([line], ",");
    assert "," == [','];
    ParseRangeOfNumbers(a, b);
    ParseRangesCons(line, [], Range(a, b), []);
    assert [line] + [] == [line] && [Range(a, b)] + [] == [Range(a, b)];
  }

  /** A line of one range, and both parts then panic on it. */
  lemma SingleRangeLine(pairs: seq<seq<Range>>, k: nat, r: Range)
    requires k < |pairs| && pairs[k] == [r]
    ensures SolveFirst(pairs) == None && SolveSecond(pairs) == None
  {
  }

  predicate WellFormed(pairs: seq<seq<Range>>)
  {
    forall i :: 0 <= i < |pairs| ==>
      |pairs[i]| >= 2 && pairs[i][0].start <= pairs[i][0].end && pairs[i][1].start <= pairs[i][1].end
  }

  /** When every range is non-empty, every contained pair also overlaps, so
      part 1 never exceeds part 2. */
  lemma {:induction false} SolveFirstAtMostSecond(pairs: seq<seq<Range>>)
    requires WellFormed(pairs)
    ensures SolveFirst(pairs).Some? && SolveSecond(pairs).Some?
    ensures SolveFirst(pairs).value <= SolveSecond(pairs).value
  {
    if pairs != [] {
      assert WellFormed(pairs[1..]) by {
        forall i | 0 <= i < |pairs[1..]|
          ensures |pairs[1..][i]| >= 2
        {
          assert pairs[1..][i] == pairs[i + 1];
        }
      }
      SolveFirstAtMostSecond(pairs[1..]);
      var p := pairs[0];
      if Contains(p[1], p[0]) {
        ContainsImpliesOverlaps(p[1], p[0]);
      }
    }
  }

  /** Empty input holds no lines and both parts answer 0. */
  lemma EmptyInput()
    ensures ParseInput("") == Some([])
    ensures SolveFirst([]) == Some(0) && SolveSecond([]) == Some(0)
  {
    assert SplitOn("", "\n") == [""];
  }
}
