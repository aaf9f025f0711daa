/** Day 1: the text lists numbers in groups separated by blank lines. Part 1
    is the largest group total; part 2 is the sum of the three largest group
    totals, which the original takes by popping a max-heap three times. */
module Day01 {
  import opened Common
  import opened Text

  /** What one line adds to its group: its value when it parses as a signed
      integer, nothing otherwise (`flat_map` over the parse result). */
  function LineValue(line: string): int
  {
    match ParseInt(line)
    case Some(v) => v
    case None => 0
  }

  function LineValues(lines: seq<string>): (r: seq<int>)
    ensures |r| == |lines|
    ensures forall i :: 0 <= i < |lines| ==> r[i] == LineValue(lines[i])
  {
    if lines == [] then [] else [LineValue(lines[0])] + LineValues(lines[1..])
  }

  /** The total of one group: the values of its lines, split at line feeds. */
  function GroupSum(group: string): int
  {
    Sum(LineValues(SplitOn(group, "\n")))
  }

  function GroupSumsOf(groups: seq<string>): (r: seq<int>)
    ensures |r| == |groups|
    ensures forall i :: 0 <= i < |groups| ==> r[i] == GroupSum(groups[i])
  {
    if groups == [] then [] else [GroupSum(groups[0])] + GroupSumsOf(groups[1..])
  }

  /** `parse_input`: one total per piece of the text between blank lines. */
  function ParseInput(text: string): seq<int>
  {
    GroupSumsOf(SplitOn(text, "\n\n"))
  }

  /** The groups are exactly the pieces that, joined with blank lines, give the
      text back; in particular there is always at least one group. */
  lemma ParseInputGroups(text: string)
    ensures var pieces := SplitOn(text, "\n\n");
            |ParseInput(text)| == |pieces| >= 1 && Join(pieces, "\n\n") == text
  {
    JoinSplit(text, "\n\n");
  }

  function Render(xs: seq<int>): (r: seq<string>)
    ensures |r| == |xs|
    ensures forall i :: 0 <= i < |xs| ==> r[i] == ShowInt(xs[i])
  {
    if xs == [] then [] else [ShowInt(xs[0])] + Render(xs[1..])
  }

  lemma RenderedLinesHaveNoLineFeed(xs: seq<int>)
    ensures forall k :: 0 <= k < |xs| ==> '\n' !in Render(xs)[k]
  {
    forall k | 0 <= k < |xs|
      ensures '\n' !in Render(xs)[k]
    {
      var digits := ShowNat(if xs[k] < 0 then -xs[k] else xs[k]);
      assert Render(xs)[k] == if xs[k] < 0 then "-" + digits else digits;
      assert forall i :: 0 <= i < |digits| ==> digits[i] != '\n';
    }
  }

  lemma LineValuesOfRender(xs: seq<int>)
    ensures LineValues(Render(xs)) == xs
  {
    forall k | 0 <= k < |xs|
      ensures LineValues(Render(xs))[k] == xs[k]
    {
      ParseShowInt(xs[k]);
    }
  }

  /** A group written as one number per line totals the sum of those numbers. */
  lemma GroupSumOfNumbers(xs: seq<int>)
    requires |xs| >= 1
    ensures GroupSum(Join(Render(xs), "\n")) == Sum(xs)
  {
    RenderedLinesHaveNoLineFeed(xs);
    SplitJoin(Render(xs), "\n");
    assert "\n" == ['\n'];
    LineValuesOfRender(xs);
  }

  /** Part 1: the largest group total (`max().unwrap()`; parsing always gives at
      least one group). */
  function SolveFirst(groups: seq<int>): (r: int)
    requires |groups| >= 1
    ensures r in groups
    ensures forall i :: 0 <= i < |groups| ==> groups[i] <= r
  {
    Max(groups)
  }

  /** Part 2 as written: the sum of the three largest totals, counting
      repeated totals separately. The heap pops its largest element first,
      which is the last element of the ascending sort; `None` where fewer than
      three groups make one of the three `pop().unwrap()` calls panic. */
  function SolveSecond(groups: seq<int>): (r: Option<int>)
    ensures r.Some? <==> |groups| >= 3
  {
    if |groups| < 3 then None else Some(LastThreeSum(Sort(groups)))
  }

  /** Part 2 as the original's test expects it: the total of the three
      largest groups, or of all of them when there are fewer than three. */
  function TopThreeTotal(groups: seq<int>): int
  {
    var s := Sort(groups);
    var k := if |s| < 3 then |s| else 3;
    Sum(s[|s| - k..])
  }

  /** Where the original answers at all, the corrected part 2 gives the same
      answer. */
  lemma TopThreeTotalAgrees(groups: seq<int>)
    requires |groups| >= 3
    ensures SolveSecond(groups) == Some(TopThreeTotal(groups))
  {
    var s := Sort(groups);
    var n := |s|;
    var top := s[n - 3..];
    assert top[1..][1..][1..] == [];
    assert Sum(top[1..][1..]) == s[n - 1];
    assert Sum(top[1..]) == s[n - 2] + s[n - 1];
    assert Sum(top) == LastThreeSum(s);
  }

  function LastThreeSum(s: seq<int>): int
    requires |s| >= 3
  {
    s[|s| - 1] + s[|s| - 2] + s[|s| - 3]
  }

  /** The last three elements of a sequence are three of its elements. */
  lemma LastThreeOf(s: seq<int>, m: multiset<int>)
    requires |s| >= 3 && multiset(s) == m
    ensures multiset{s[|s| - 1], s[|s| - 2], s[|s| - 3]} <= m
  {
    var n := |s|;
    var top := [s[n - 3], s[n - 2], s[n - 1]];
    assert s == s[..n - 3] + top;
    assert m == multiset(s[..n - 3]) + multiset(top);
  }

  /** The three values part 2 adds are totals of three different groups. */
  lemma SolveSecondAttained(groups: seq<int>)
    requires |groups| >= 3
    ensures exists a, b, c :: multiset{a, b, c} <= multiset(groups) && SolveSecond(groups) == Some(a + b + c)
  {
    var s := Sort(groups);
    var n := |s|;
    var a, b, c := s[n - 1], s[n - 2], s[n - 3];
    LastThreeIn(groups, s);
    assert SolveSecond(groups) == Some(a + b + c);
  }

  lemma LastThreeIn(groups: seq<int>, s: seq<int>)
    requires |groups| >= 3 && s == Sort(groups)
    ensures multiset{s[|s| - 1], s[|s| - 2], s[|s| - 3]} <= multiset(groups)
  {
    SortPermutes(groups);
    LastThreeOf(s, multiset(groups));
  }

  lemma PartsOfTriple(a: int, b: int, c: int, m: multiset<int>)
    requires multiset{a, b, c} <= m
    ensures a in m && b in m && c in m
    ensures multiset{a, b} <= m && multiset{a, c} <= m && multiset{b, c} <= m
  {
    assert multiset{a, b} <= multiset{a, b, c};
    assert multiset{a, c} <= multiset{a, b, c};
    assert multiset{b, c} <= multiset{a, b, c};
  }

  lemma SecondLargestBound(s: seq<int>, a: int, b: int)
    requires SortedAsc(s) && |s| >= 2
    requires multiset{a, b} <= multiset(s)
    ensures a <= s[|s| - 2] || b <= s[|s| - 2]
  {
    KthLargest(s, 2, multiset{a, b});
  }

  lemma ThirdLargestBound(s: seq<int>, a: int, b: int, c: int)
    requires SortedAsc(s) && |s| >= 3
    requires multiset{a, b, c} <= multiset(s)
    ensures a <= s[|s| - 3] || b <= s[|s| - 3] || c <= s[|s| - 3]
  {
    KthLargest(s, 3, multiset{a, b, c});
  }

  lemma TopThreeBound(s: seq<int>, a: int, b: int, c: int)
    requires SortedAsc(s) && |s| >= 3
    requires multiset{a, b, c} <= multiset(s)
    ensures a + b + c <= LastThreeSum(s)
  {
    PartsOfTriple(a, b, c, multiset(s));
    AtMostLast(s, a);
    AtMostLast(s, b);
    AtMostLast(s, c);
    SecondLargestBound(s, a, b);
    SecondLargestBound(s, a, c);
    SecondLargestBound(s, b, c);
    ThirdLargestBound(s, a, b, c);
  }

  /** No three different groups total more than part 2's answer. */
  lemma SolveSecondMaximal(groups: seq<int>, a: int, b: int, c: int)
    requires |groups| >= 3
    requires multiset{a, b, c} <= multiset(groups)
    ensures SolveSecond(groups).Some? && a + b + c <= SolveSecond(groups).value
  {
    SortAscending(groups);
    SortPermutes(groups);
    TopThreeBound(Sort(groups), a, b, c);
  }

  /** Empty input holds one group totalling 0: part 1 answers 0, part 2 as
      written panics because the heap runs dry on its second pop, and the
      corrected part 2 answers 0. */
  lemma EmptyInput()
    ensures ParseInput("") == [0]
    ensures SolveFirst(ParseInput("")) == 0
    ensures SolveSecond(ParseInput("")) == None
    ensures TopThreeTotal(ParseInput("")) == 0
  {
    assert SplitOn("", "\n\n") == [""];
    assert SplitOn("", "\n") == [""];
    assert LineValue("") == 0;
    assert LineValues([""]) == [0];
  }
}
