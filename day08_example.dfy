/** The example of day 8: the 5 x 5 grid of its tests, with every tree's
    counts worked out, has 21 visible trees and a best scenic score of 8. */
module Day08Example {
  import opened Common
  import opened Text
  import opened Day08

  /** The text of the tests, one line at a time; it ends with a line feed. */
  const ExampleText: string := "30373\n" + "25512\n" + "65332\n" + "33549\n" + "35390\n"

  lemma ConcatFive(a0: string, a1: string, a2: string, a3: string, a4: string)
    ensures Concat([a0, a1, a2, a3, a4]) == a0 + a1 + a2 + a3 + a4
  {
    var s := [a0, a1, a2, a3, a4];
    assert s[5..] == [];
    ConcatCons(s, 4);
    ConcatCons(s, 3);
    ConcatCons(s, 2);
    ConcatCons(s, 1);
    ConcatCons(s, 0);
    assert s[0..] == s;
    assert a4 + [] == a4;
  }

  /** The example text is its five lines, each ended by a line feed. */
  lemma ExampleTextJoin(text: string, ls: seq<string>)
    requires text == ExampleText
    requires ls == ["30373", "25512", "65332", "33549", "35390"]
    ensures Join(ls, "\n") + "\n" == text
  {
    var written := ["30373\n", "25512\n", "65332\n", "33549\n", "35390"];
    ConcatFive("30373\n", "25512\n", "65332\n", "33549\n", "35390");
    JoinIsConcat(ls, written);
  }

  lemma ExampleLines(text: string)
    requires text == ExampleText
    ensures Lines(text) == ["30373", "25512", "65332", "33549", "35390"]
  {
    var ls := ["30373", "25512", "65332", "33549", "35390"];
    ExampleTextJoin(text, ls);
    assert forall k :: 0 <= k < |ls| ==> '\n' !in ls[k];
    LinesOfTerminated(ls);
  }

  lemma Digits()
    ensures DigitChar(0) == '0' && DigitChar(1) == '1' && DigitChar(2) == '2' && DigitChar(3) == '3' && DigitChar(4) == '4'
    ensures DigitChar(5) == '5' && DigitChar(6) == '6' && DigitChar(7) == '7' && DigitChar(9) == '9'
  {
  }

  /** Each line of the example text parses to its row of the grid. */
  lemma ExampleRow0Parses(line: string)
    requires line == "30373"
    ensures ParseRow(line) == Some(ExampleGrid[0])
  {
    Digits();
    ParseDigitRow(line, [3, 0, 3, 7, 3]);
  }

  lemma ExampleRow1Parses(line: string)
    requires line == "25512"
    ensures ParseRow(line) == Some(ExampleGrid[1])
  {
    Digits();
    ParseDigitRow(line, [2, 5, 5, 1, 2]);
  }

  lemma ExampleRow2Parses(line: string)
    requires line == "65332"
    ensures ParseRow(line) == Some(ExampleGrid[2])
  {
    Digits();
    ParseDigitRow(line, [6, 5, 3, 3, 2]);
  }

  lemma ExampleRow3Parses(line: string)
    requires line == "33549"
    ensures ParseRow(line) == Some(ExampleGrid[3])
  {
    Digits();
    ParseDigitRow(line, [3, 3, 5, 4, 9]);
  }

  lemma ExampleRow4Parses(line: string)
    requires line == "35390"
    ensures ParseRow(line) == Some(ExampleGrid[4])
  {
    Digits();
    ParseDigitRow(line, [3, 5, 3, 9, 0]);
  }

  /** The example's lines parse to the example grid. */
  lemma ExampleRows(l0: string, l1: string, l2: string, l3: string, l4: string)
    requires l0 == "30373" && l1 == "25512" && l2 == "65332" && l3 == "33549" && l4 == "35390"
    ensures ParseRows([l0, l1, l2, l3, l4]) == Some(ExampleGrid)
  {
    ExampleRow0Parses(l0);
    ExampleRow1Parses(l1);
    ExampleRow2Parses(l2);
    ExampleRow3Parses(l3);
    ExampleRow4Parses(l4);
    ParseRowsOf([l0, l1, l2, l3, l4], ExampleGrid);
  }

  /** `parse_input` on the text of the tests reads the example grid. */
  lemma ExampleParse(text: string)
    requires text == ExampleText
    ensures ParseRows(Lines(text)) == Some(ExampleGrid)
  {
    ExampleLines(text);
    ExampleRows("30373", "25512", "65332", "33549", "35390");
  }

  /** The example grid. */
  const ExampleGrid: Grid := [
    [3, 0, 3, 7, 3],
    [2, 5, 5, 1, 2],
    [6, 5, 3, 3, 2],
    [3, 3, 5, 4, 9],
    [3, 5, 3, 9, 0]
  ]

  /** Its visibility counts. */
  const ExampleVisibility: seq<seq<Visibility>> := [
    [Visibility(0, 1, 0, 1), Visibility(0, 0, 0, 0), Visibility(0, 0, 1, 0), Visibility(0, 3, 3, 1), Visibility(0, 2, 0, 0)],
    [Visibility(0, 0, 0, 0), Visibility(1, 0, 1, 0), Visibility(1, 1, 0, 2), Visibility(0, 0, 0, 0), Visibility(0, 0, 1, 0)],
    [Visibility(2, 2, 0, 4), Visibility(0, 1, 0, 3), Visibility(0, 0, 0, 0), Visibility(1, 0, 0, 1), Visibility(0, 0, 0, 0)],
    [Visibility(0, 0, 0, 0), Visibility(0, 0, 0, 0), Visibility(1, 1, 2, 1), Visibility(2, 0, 0, 0), Visibility(3, 1, 4, 0)],
    [Visibility(0, 0, 0, 0), Visibility(1, 0, 1, 1), Visibility(0, 0, 0, 0), Visibility(4, 0, 3, 1), Visibility(0, 0, 0, 0)]
  ]

  lemma ExampleCell00()
    ensures WellShaped(ExampleGrid)
    ensures VisibilityAt(ExampleGrid, 0, 0) == ExampleVisibility[0][0]
  {
    var g := ExampleGrid;
    assert WellShaped(g);
    LeftCountIs(g, 0, 0, 0);
    RightCountIs(g, 0, 0, 1);
    UpCountIs(g, 0, 0, 0);
    DownCountIs(g, 0, 0, 1);
  }

  lemma ExampleCell01()
    ensures WellShaped(ExampleGrid)
    ensures VisibilityAt(ExampleGrid, 0, 1) == ExampleVisibility[0][1]
  {
    var g := ExampleGrid;
    assert WellShaped(g);
    LeftCountIs(g, 0, 1, 0);
    RightCountIs(g, 0, 1, 0);
    UpCountIs(g, 0, 1, 0);
    DownCountIs(g, 0, 1, 0);
  }

  lemma ExampleCell02()
    ensures WellShaped(ExampleGrid)
    ensures VisibilityAt(ExampleGrid, 0, 2) == ExampleVisibility[0][2]
  {
    var g := ExampleGrid;
    assert WellShaped(g);
    LeftCountIs(g, 0, 2, 0);
    RightCountIs(g, 0, 2, 0);
    UpCountIs(g, 0, 2, 1);
    DownCountIs(g, 0, 2, 0);
  }

  lemma ExampleCell03()
    ensures WellShaped(ExampleGrid)
    ensures VisibilityAt(ExampleGrid, 0, 3) == ExampleVisibility[0][3]
  {
    var g := ExampleGrid;
    assert WellShaped(g);
    LeftCountIs(g, 0, 3, 0);
    RightCountIs(g, 0, 3, 3);
    UpCountIs(g, 0, 3, 3);
    DownCountIs(g, 0, 3, 1);
  }

  lemma ExampleCell04()
    ensures WellShaped(ExampleGrid)
    ensures VisibilityAt(ExampleGrid, 0, 4) == ExampleVisibility[0][4]
  {
    var g := ExampleGrid;
    assert WellShaped(g);
    LeftCountIs(g, 0, 4, 0);
    RightCountIs(g, 0, 4, 2);
    UpCountIs(g, 0, 4, 0);
    DownCountIs(g, 0, 4, 0);
  }

  lemma ExampleCell10()
    ensures WellShaped(ExampleGrid)
    ensures VisibilityAt(ExampleGrid, 1, 0) == ExampleVisibility[1][0]
  {
    var g := ExampleGrid;
    assert WellShaped(g);
    LeftCountIs(g, 1, 0, 0);
    RightCountIs(g, 1, 0, 0);
    UpCountIs(g, 1, 0, 0);
    DownCountIs(g, 1, 0, 0);
  }

  lemma ExampleCell11()
    ensures WellShaped(ExampleGrid)
    ensures VisibilityAt(ExampleGrid, 1, 1) == ExampleVisibility[1][1]
  {
    var g := ExampleGrid;
    assert WellShaped(g);
    LeftCountIs(g, 1, 1, 1);
    RightCountIs(g, 1, 1, 0);
    UpCountIs(g, 1, 1, 1);
    DownCountIs(g, 1, 1, 0);
  }

  lemma ExampleCell12()
    ensures WellShaped(ExampleGrid)
    ensures VisibilityAt(ExampleGrid, 1, 2) == ExampleVisibility[1][2]
  {
    var g := ExampleGrid;
    assert WellShaped(g);
    LeftCountIs(g, 1, 2, 1);
    RightCountIs(g, 1, 2, 1);
    UpCountIs(g, 1, 2, 0);
    DownCountIs(g, 1, 2, 2);
  }

  lemma ExampleCell13()
    ensures WellShaped(ExampleGrid)
    ensures VisibilityAt(ExampleGrid, 1, 3) == ExampleVisibility[1][3]
  {
    var g := ExampleGrid;
    assert WellShaped(g);
    LeftCountIs(g, 1, 3, 0);
    RightCountIs(g, 1, 3, 0);
    UpCountIs(g, 1, 3, 0);
    DownCountIs(g, 1, 3, 0);
  }

  lemma ExampleCell14()
    ensures WellShaped(ExampleGrid)
    ensures VisibilityAt(ExampleGrid, 1, 4) == ExampleVisibility[1][4]
  {
    var g := ExampleGrid;
    assert WellShaped(g);
    LeftCountIs(g, 1, 4, 0);
    RightCountIs(g, 1, 4, 0);
    UpCountIs(g, 1, 4, 1);
    DownCountIs(g, 1, 4, 0);
  }

  lemma ExampleCell20()
    ensures WellShaped(ExampleGrid)
    ensures VisibilityAt(ExampleGrid, 2, 0) == ExampleVisibility[2][0]
  {
    var g := ExampleGrid;
    assert WellShaped(g);
    LeftCountIs(g, 2, 0, 2);
    RightCountIs(g, 2, 0, 2);
    UpCountIs(g, 2, 0, 0);
    DownCountIs(g, 2, 0, 4);
  }

  lemma ExampleCell21()
    ensures WellShaped(ExampleGrid)
    ensures VisibilityAt(ExampleGrid, 2, 1) == ExampleVisibility[2][1]
  {
    var g := ExampleGrid;
    assert WellShaped(g);
    LeftCountIs(g, 2, 1, 0);
    RightCountIs(g, 2, 1, 1);
    UpCountIs(g, 2, 1, 0);
    DownCountIs(g, 2, 1, 3);
  }

  lemma ExampleCell22()
    ensures WellShaped(ExampleGrid)
    ensures VisibilityAt(ExampleGrid, 2, 2) == ExampleVisibility[2][2]
  {
    var g := ExampleGrid;
    assert WellShaped(g);
    LeftCountIs(g, 2, 2, 0);
    RightCountIs(g, 2, 2, 0);
    UpCountIs(g, 2, 2, 0);
    DownCountIs(g, 2, 2, 0);
  }

  lemma ExampleCell23()
    ensures WellShaped(ExampleGrid)
    ensures VisibilityAt(ExampleGrid, 2, 3) == ExampleVisibility[2][3]
  {
    var g := ExampleGrid;
    assert WellShaped(g);
    LeftCountIs(g, 2, 3, 1);
    RightCountIs(g, 2, 3, 0);
    UpCountIs(g, 2, 3, 0);
    DownCountIs(g, 2, 3, 1);
  }

  lemma ExampleCell24()
    ensures WellShaped(ExampleGrid)
    ensures VisibilityAt(ExampleGrid, 2, 4) == ExampleVisibility[2][4]
  {
    var g := ExampleGrid;
    assert WellShaped(g);
    LeftCountIs(g, 2, 4, 0);
    RightCountIs(g, 2, 4, 0);
    UpCountIs(g, 2, 4, 0);
    DownCountIs(g, 2, 4, 0);
  }

  lemma ExampleCell30()
    ensures WellShaped(ExampleGrid)
    ensures VisibilityAt(ExampleGrid, 3, 0) == ExampleVisibility[3][0]
  {
    var g := ExampleGrid;
    assert WellShaped(g);
    LeftCountIs(g, 3, 0, 0);
    RightCountIs(g, 3, 0, 0);
    UpCountIs(g, 3, 0, 0);
    DownCountIs(g, 3, 0, 0);
  }

  lemma ExampleCell31()
    ensures WellShaped(ExampleGrid)
    ensures VisibilityAt(ExampleGrid, 3, 1) == ExampleVisibility[3][1]
  {
    var g := ExampleGrid;
    assert WellShaped(g);
    LeftCountIs(g, 3, 1, 0);
    RightCountIs(g, 3, 1, 0);
    UpCountIs(g, 3, 1, 0);
    DownCountIs(g, 3, 1, 0);
  }

  lemma ExampleCell32()
    ensures WellShaped(ExampleGrid)
    ensures VisibilityAt(ExampleGrid, 3, 2) == ExampleVisibility[3][2]
  {
    var g := ExampleGrid;
    assert WellShaped(g);
    LeftCountIs(g, 3, 2, 1);
    RightCountIs(g, 3, 2, 1);
    UpCountIs(g, 3, 2, 2);
    DownCountIs(g, 3, 2, 1);
  }

  lemma ExampleCell33()
    ensures WellShaped(ExampleGrid)
    ensures VisibilityAt(ExampleGrid, 3, 3) == ExampleVisibility[3][3]
  {
    var g := ExampleGrid;
    assert WellShaped(g);
    LeftCountIs(g, 3, 3, 2);
    RightCountIs(g, 3, 3, 0);
    UpCountIs(g, 3, 3, 0);
    DownCountIs(g, 3, 3, 0);
  }

  lemma ExampleCell34()
    ensures WellShaped(ExampleGrid)
    ensures VisibilityAt(ExampleGrid, 3, 4) == ExampleVisibility[3][4]
  {
    var g := ExampleGrid;
    assert WellShaped(g);
    LeftCountIs(g, 3, 4, 3);
    RightCountIs(g, 3, 4, 1);
    UpCountIs(g, 3, 4, 4);
    DownCountIs(g, 3, 4, 0);
  }

  lemma ExampleCell40()
    ensures WellShaped(ExampleGrid)
    ensures VisibilityAt(ExampleGrid, 4, 0) == ExampleVisibility[4][0]
  {
    var g := ExampleGrid;
    assert WellShaped(g);
    LeftCountIs(g, 4, 0, 0);
    RightCountIs(g, 4, 0, 0);
    UpCountIs(g, 4, 0, 0);
    DownCountIs(g, 4, 0, 0);
  }

  lemma ExampleCell41()
    ensures WellShaped(ExampleGrid)
    ensures VisibilityAt(ExampleGrid, 4, 1) == ExampleVisibility[4][1]
  {
    var g := ExampleGrid;
    assert WellShaped(g);
    LeftCountIs(g, 4, 1, 1);
    RightCountIs(g, 4, 1, 0);
    UpCountIs(g, 4, 1, 1);
    DownCountIs(g, 4, 1, 1);
  }

  lemma ExampleCell42()
    ensures WellShaped(ExampleGrid)
    ensures VisibilityAt(ExampleGrid, 4, 2) == ExampleVisibility[4][2]
  {
    var g := ExampleGrid;
    assert WellShaped(g);
    LeftCountIs(g, 4, 2, 0);
    RightCountIs(g, 4, 2, 0);
    UpCountIs(g, 4, 2, 0);
    DownCountIs(g, 4, 2, 0);
  }

  lemma ExampleCell43()
    ensures WellShaped(ExampleGrid)
    ensures VisibilityAt(ExampleGrid, 4, 3) == ExampleVisibility[4][3]
  {
    var g := ExampleGrid;
    assert WellShaped(g);
    LeftCountIs(g, 4, 3, 4);
    RightCountIs(g, 4, 3, 0);
    UpCountIs(g, 4, 3, 3);
    DownCountIs(g, 4, 3, 1);
  }

  lemma ExampleCell44()
    ensures WellShaped(ExampleGrid)
    ensures VisibilityAt(ExampleGrid, 4, 4) == ExampleVisibility[4][4]
  {
    var g := ExampleGrid;
    assert WellShaped(g);
    LeftCountIs(g, 4, 4, 0);
    RightCountIs(g, 4, 4, 0);
    UpCountIs(g, 4, 4, 0);
    DownCountIs(g, 4, 4, 0);
  }

  lemma ExampleRow0()
    ensures WellShaped(ExampleGrid)
    ensures forall y :: 0 <= y < 5 ==> VisibilityAt(ExampleGrid, 0, y) == ExampleVisibility[0][y]
  {
    ExampleCell00();
    ExampleCell01();
    ExampleCell02();
    ExampleCell03();
    ExampleCell04();
  }

  lemma ExampleRow1()
    ensures WellShaped(ExampleGrid)
    ensures forall y :: 0 <= y < 5 ==> VisibilityAt(ExampleGrid, 1, y) == ExampleVisibility[1][y]
  {
    ExampleCell10();
    ExampleCell11();
    ExampleCell12();
    ExampleCell13();
    ExampleCell14();
  }

  lemma ExampleRow2()
    ensures WellShaped(ExampleGrid)
    ensures forall y :: 0 <= y < 5 ==> VisibilityAt(ExampleGrid, 2, y) == ExampleVisibility[2][y]
  {
    ExampleCell20();
    ExampleCell21();
    ExampleCell22();
    ExampleCell23();
    ExampleCell24();
  }

  lemma ExampleRow3()
    ensures WellShaped(ExampleGrid)
    ensures forall y :: 0 <= y < 5 ==> VisibilityAt(ExampleGrid, 3, y) == ExampleVisibility[3][y]
  {
    ExampleCell30();
    ExampleCell31();
    ExampleCell32();
    ExampleCell33();
    ExampleCell34();
  }

  lemma ExampleRow4()
    ensures WellShaped(ExampleGrid)
    ensures forall y :: 0 <= y < 5 ==> VisibilityAt(ExampleGrid, 4, y) == ExampleVisibility[4][y]
  {
    ExampleCell40();
    ExampleCell41();
    ExampleCell42();
    ExampleCell43();
    ExampleCell44();
  }

  lemma ExampleGridVisibility()
    ensures WellShaped(ExampleGrid)
    ensures CalculateVisibility(ExampleGrid) == ExampleVisibility
  {
    ExampleRow0();
    ExampleRow1();
    ExampleRow2();
    ExampleRow3();
    ExampleRow4();
    var r := CalculateVisibility(ExampleGrid);
    forall x | 0 <= x < 5
      ensures r[x] == ExampleVisibility[x]
    {
      assert forall y :: 0 <= y < 5 ==> r[x][y] == ExampleVisibility[x][y];
    }
  }

  /** The text of the tests parses to the example's visibility counts. */
  lemma ExampleParseInput(text: string)
    requires text == ExampleText
    ensures ParseInput(Lines(text)) == Some(ExampleVisibility)
  {
    ExampleParse(text);
    ExampleGridVisibility();
  }

  /** The tests: the example has 21 visible trees and a best scenic score of 8. */
  lemma ExampleAnswers(text: string)
    requires text == ExampleText
    ensures ParseInput(Lines(text)).Some?
    ensures SolveFirst(ParseInput(Lines(text)).value) == 21
    ensures SolveSecond(ParseInput(Lines(text)).value) == 8
  {
    ExampleParseInput(text);
    ExampleVisibleCount();
    ExampleBestScore();
  }

  lemma ExampleRowCount0()
    ensures Rectangular(ExampleVisibility) && |ExampleVisibility[0]| == 5
    ensures CountRow(ExampleVisibility, 0, 5) == 5
  {
    var v := ExampleVisibility;
    assert Rectangular(v);
    assert CountRow(v, 0, 1) == 1;
    assert CountRow(v, 0, 2) == 2;
    assert CountRow(v, 0, 3) == 3;
    assert CountRow(v, 0, 4) == 4;
    assert CountRow(v, 0, 5) == 5;
  }

  lemma ExampleScore00()
    ensures Rectangular(ExampleVisibility) && |ExampleVisibility[0]| == 5
    ensures Score(ExampleVisibility, 0, 0) == 0
  {
    var v := ExampleVisibility;
    assert Rectangular(v);
    assert v[0][0] == Visibility(0, 1, 0, 1);
  }

  lemma ExampleScore01()
    ensures Rectangular(ExampleVisibility) && |ExampleVisibility[0]| == 5
    ensures Score(ExampleVisibility, 0, 1) == 0
  {
    var v := ExampleVisibility;
    assert Rectangular(v);
    assert v[0][1] == Visibility(0, 0, 0, 0);
  }

  lemma ExampleScore02()
    ensures Rectangular(ExampleVisibility) && |ExampleVisibility[0]| == 5
    ensures Score(ExampleVisibility, 0, 2) == 0
  {
    var v := ExampleVisibility;
    assert Rectangular(v);
    assert v[0][2] == Visibility(0, 0, 1, 0);
  }

  lemma ExampleScore03()
    ensures Rectangular(ExampleVisibility) && |ExampleVisibility[0]| == 5
    ensures Score(ExampleVisibility, 0, 3) == 0
  {
    var v := ExampleVisibility;
    assert Rectangular(v);
    assert v[0][3] == Visibility(0, 3, 3, 1);
  }

  lemma ExampleScore04()
    ensures Rectangular(ExampleVisibility) && |ExampleVisibility[0]| == 5
    ensures Score(ExampleVisibility, 0, 4) == 0
  {
    var v := ExampleVisibility;
    assert Rectangular(v);
    assert v[0][4] == Visibility(0, 2, 0, 0);
  }

  lemma ExampleRowCount1()
    ensures Rectangular(ExampleVisibility) && |ExampleVisibility[0]| == 5
    ensures CountRow(ExampleVisibility, 1, 5) == 4
  {
    var v := ExampleVisibility;
    assert Rectangular(v);
    assert CountRow(v, 1, 1) == 1;
    assert CountRow(v, 1, 2) == 2;
    assert CountRow(v, 1, 3) == 3;
    assert CountRow(v, 1, 4) == 3;
    assert CountRow(v, 1, 5) == 4;
  }

  lemma ExampleScore10()
    ensures Rectangular(ExampleVisibility) && |ExampleVisibility[0]| == 5
    ensures Score(ExampleVisibility, 1, 0) == 0
  {
    var v := ExampleVisibility;
    assert Rectangular(v);
    assert v[1][0] == Visibility(0, 0, 0, 0);
  }

  lemma ExampleScore11()
    ensures Rectangular(ExampleVisibility) && |ExampleVisibility[0]| == 5
    ensures Score(ExampleVisibility, 1, 1) == 1
  {
    var v := ExampleVisibility;
    assert Rectangular(v);
    assert v[1][1] == Visibility(1, 0, 1, 0);
  }

  lemma ExampleScore12()
    ensures Rectangular(ExampleVisibility) && |ExampleVisibility[0]| == 5
    ensures Score(ExampleVisibility, 1, 2) == 4
  {
    var v := ExampleVisibility;
    assert Rectangular(v);
    assert v[1][2] == Visibility(1, 1, 0, 2);
  }

  lemma ExampleScore13()
    ensures Rectangular(ExampleVisibility) && |ExampleVisibility[0]| == 5
    ensures Score(ExampleVisibility, 1, 3) == 1
  {
    var v := ExampleVisibility;
    assert Rectangular(v);
    assert v[1][3] == Visibility(0, 0, 0, 0);
  }

  lemma ExampleScore14()
    ensures Rectangular(ExampleVisibility) && |ExampleVisibility[0]| == 5
    ensures Score(ExampleVisibility, 1, 4) == 0
  {
    var v := ExampleVisibility;
    assert Rectangular(v);
    assert v[1][4] == Visibility(0, 0, 1, 0);
  }

  lemma ExampleRowCount2()
    ensures Rectangular(ExampleVisibility) && |ExampleVisibility[0]| == 5
    ensures CountRow(ExampleVisibility, 2, 5) == 4
  {
    var v := ExampleVisibility;
    assert Rectangular(v);
    assert CountRow(v, 2, 1) == 1;
    assert CountRow(v, 2, 2) == 2;
    assert CountRow(v, 2, 3) == 2;
    assert CountRow(v, 2, 4) == 3;
    assert CountRow(v, 2, 5) == 4;
  }

  lemma ExampleScore20()
    ensures Rectangular(ExampleVisibility) && |ExampleVisibility[0]| == 5
    ensures Score(ExampleVisibility, 2, 0) == 0
  {
    var v := ExampleVisibility;
    assert Rectangular(v);
    assert v[2][0] == Visibility(2, 2, 0, 4);
  }

  lemma ExampleScore21()
    ensures Rectangular(ExampleVisibility) && |ExampleVisibility[0]| == 5
    ensures Score(ExampleVisibility, 2, 1) == 6
  {
    var v := ExampleVisibility;
    assert Rectangular(v);
    assert v[2][1] == Visibility(0, 1, 0, 3);
  }

  lemma ExampleScore22()
    ensures Rectangular(ExampleVisibility) && |ExampleVisibility[0]| == 5
    ensures Score(ExampleVisibility, 2, 2) == 1
  {
    var v := ExampleVisibility;
    assert Rectangular(v);
    assert v[2][2] == Visibility(0, 0, 0, 0);
  }

  lemma ExampleScore23()
    ensures Rectangular(ExampleVisibility) && |ExampleVisibility[0]| == 5
    ensures Score(ExampleVisibility, 2, 3) == 2
  {
    var v := ExampleVisibility;
    assert Rectangular(v);
    assert v[2][3] == Visibility(1, 0, 0, 1);
  }

  lemma ExampleScore24()
    ensures Rectangular(ExampleVisibility) && |ExampleVisibility[0]| == 5
    ensures Score(ExampleVisibility, 2, 4) == 0
  {
    var v := ExampleVisibility;
    assert Rectangular(v);
    assert v[2][4] == Visibility(0, 0, 0, 0);
  }

  lemma ExampleRowCount3()
    ensures Rectangular(ExampleVisibility) && |ExampleVisibility[0]| == 5
    ensures CountRow(ExampleVisibility, 3, 5) == 3
  {
    var v := ExampleVisibility;
    assert Rectangular(v);
    assert CountRow(v, 3, 1) == 1;
    assert CountRow(v, 3, 2) == 1;
    assert CountRow(v, 3, 3) == 2;
    assert CountRow(v, 3, 4) == 2;
    assert CountRow(v, 3, 5) == 3;
  }

  lemma ExampleScore30()
    ensures Rectangular(ExampleVisibility) && |ExampleVisibility[0]| == 5
    ensures Score(ExampleVisibility, 3, 0) == 0
  {
    var v := ExampleVisibility;
    assert Rectangular(v);
    assert v[3][0] == Visibility(0, 0, 0, 0);
  }

  lemma ExampleScore31()
    ensures Rectangular(ExampleVisibility) && |ExampleVisibility[0]| == 5
    ensures Score(ExampleVisibility, 3, 1) == 1
  {
    var v := ExampleVisibility;
    assert Rectangular(v);
    assert v[3][1] == Visibility(0, 0, 0, 0);
  }

  lemma ExampleScore32()
    ensures Rectangular(ExampleVisibility) && |ExampleVisibility[0]| == 5
    ensures Score(ExampleVisibility, 3, 2) == 8
  {
    var v := ExampleVisibility;
    assert Rectangular(v);
    assert v[3][2] == Visibility(1, 1, 2, 1);
  }

  lemma ExampleScore33()
    ensures Rectangular(ExampleVisibility) && |ExampleVisibility[0]| == 5
    ensures Score(ExampleVisibility, 3, 3) == 3
  {
    var v := ExampleVisibility;
    assert Rectangular(v);
    assert v[3][3] == Visibility(2, 0, 0, 0);
  }

  lemma ExampleScore34()
    ensures Rectangular(ExampleVisibility) && |ExampleVisibility[0]| == 5
    ensures Score(ExampleVisibility, 3, 4) == 0
  {
    var v := ExampleVisibility;
    assert Rectangular(v);
    assert v[3][4] == Visibility(3, 1, 4, 0);
  }

  lemma ExampleRowCount4()
    ensures Rectangular(ExampleVisibility) && |ExampleVisibility[0]| == 5
    ensures CountRow(ExampleVisibility, 4, 5) == 5
  {
    var v := ExampleVisibility;
    assert Rectangular(v);
    assert CountRow(v, 4, 1) == 1;
    assert CountRow(v, 4, 2) == 2;
    assert CountRow(v, 4, 3) == 3;
    assert CountRow(v, 4, 4) == 4;
    assert CountRow(v, 4, 5) == 5;
  }

  lemma ExampleScore40()
    ensures Rectangular(ExampleVisibility) && |ExampleVisibility[0]| == 5
    ensures Score(ExampleVisibility, 4, 0) == 0
  {
    var v := ExampleVisibility;
    assert Rectangular(v);
    assert v[4][0] == Visibility(0, 0, 0, 0);
  }

  lemma ExampleScore41()
    ensures Rectangular(ExampleVisibility) && |ExampleVisibility[0]| == 5
    ensures Score(ExampleVisibility, 4, 1) == 0
  {
    var v := ExampleVisibility;
    assert Rectangular(v);
    assert v[4][1] == Visibility(1, 0, 1, 1);
  }

  lemma ExampleScore42()
    ensures Rectangular(ExampleVisibility) && |ExampleVisibility[0]| == 5
    ensures Score(ExampleVisibility, 4, 2) == 0
  {
    var v := ExampleVisibility;
    assert Rectangular(v);
    assert v[4][2] == Visibility(0, 0, 0, 0);
  }

  lemma ExampleScore43()
    ensures Rectangular(ExampleVisibility) && |ExampleVisibility[0]| == 5
    ensures Score(ExampleVisibility, 4, 3) == 0
  {
    var v := ExampleVisibility;
    assert Rectangular(v);
    assert v[4][3] == Visibility(4, 0, 3, 1);
  }

  lemma ExampleScore44()
    ensures Rectangular(ExampleVisibility) && |ExampleVisibility[0]| == 5
    ensures Score(ExampleVisibility, 4, 4) == 0
  {
    var v := ExampleVisibility;
    assert Rectangular(v);
    assert v[4][4] == Visibility(0, 0, 0, 0);
  }

  lemma ExampleScoreAtMost8(x: nat, y: nat)
    requires x < 5 && y < 5
    ensures Rectangular(ExampleVisibility) && |ExampleVisibility[0]| == 5
    ensures Score(ExampleVisibility, x, y) <= 8
  {
    if x == 0 && y == 0 {
      ExampleScore00();
    } else if x == 0 && y == 1 {
      ExampleScore01();
    } else if x == 0 && y == 2 {
      ExampleScore02();
    } else if x == 0 && y == 3 {
      ExampleScore03();
    } else if x == 0 && y == 4 {
      ExampleScore04();
    } else if x == 1 && y == 0 {
      ExampleScore10();
    } else if x == 1 && y == 1 {
      ExampleScore11();
    } else if x == 1 && y == 2 {
      ExampleScore12();
    } else if x == 1 && y == 3 {
      ExampleScore13();
    } else if x == 1 && y == 4 {
      ExampleScore14();
    } else if x == 2 && y == 0 {
      ExampleScore20();
    } else if x == 2 && y == 1 {
      ExampleScore21();
    } else if x == 2 && y == 2 {
      ExampleScore22();
    } else if x == 2 && y == 3 {
      ExampleScore23();
    } else if x == 2 && y == 4 {
      ExampleScore24();
    } else if x == 3 && y == 0 {
      ExampleScore30();
    } else if x == 3 && y == 1 {
      ExampleScore31();
    } else if x == 3 && y == 2 {
      ExampleScore32();
    } else if x == 3 && y == 3 {
      ExampleScore33();
    } else if x == 3 && y == 4 {
      ExampleScore34();
    } else if x == 4 && y == 0 {
      ExampleScore40();
    } else if x == 4 && y == 1 {
      ExampleScore41();
    } else if x == 4 && y == 2 {
      ExampleScore42();
    } else if x == 4 && y == 3 {
      ExampleScore43();
    } else {
      ExampleScore44();
    }
  }

  lemma ExampleVisibleCount()
    ensures Rectangular(ExampleVisibility) && |ExampleVisibility[0]| >= 1
    ensures SolveFirst(ExampleVisibility) == 21
  {
    var v := ExampleVisibility;
    ExampleRowCount0();
    ExampleRowCount1();
    ExampleRowCount2();
    ExampleRowCount3();
    ExampleRowCount4();
    assert CountRows(v, 1) == 5;
    assert CountRows(v, 2) == 9;
    assert CountRows(v, 3) == 13;
    assert CountRows(v, 4) == 16;
    assert CountRows(v, 5) == 21;
  }

  lemma ExampleBestScore()
    ensures Rectangular(ExampleVisibility) && |ExampleVisibility[0]| >= 1
    ensures SolveSecond(ExampleVisibility) == 8
  {
    var v := ExampleVisibility;
    assert Rectangular(v);
    forall x, y | 0 <= x < 5 && 0 <= y < 5
      ensures Score(v, x, y) <= 8
    {
      ExampleScoreAtMost8(x, y);
    }
    ExampleScore32();
    SolveSecondIs(v, 8, 3, 2);
  }
}
