/** Day 8: a grid of tree heights. For every tree the original counts, in each
    of the four directions, how many trees in a row from it are strictly lower.
    Part 1 counts the trees visible from outside the grid; part 2 finds the
    best scenic score, the product of the four viewing distances. Rows are
    indexed by `x` (the grid's first index, `width` of them) and columns by
    `y` (`height` of them, the first row's length). */
module Day08 {
  import opened Common
  import opened Text

  type Grid = seq<seq<nat>>

  /** What the original's indexing needs: a first row, and no row shorter
      than it. (A shorter row panics as soon as its own trees are visited;
      a longer one has its extra trees ignored.) */
  predicate WellShaped(grid: Grid)
  {
    |grid| >= 1 && forall x :: 0 <= x < |grid| ==> |grid[x]| >= |grid[0]|
  }

  /** `take_while(lower than h).count()` over a line of trees, nearest first. */
  function Run(s: seq<nat>, h: nat): (n: nat)
    ensures n <= |s|
    ensures forall i :: 0 <= i < n ==> s[i] < h
    ensures n < |s| ==> s[n] >= h
  {
    if s == [] || s[0] >= h then 0 else 1 + Run(s[1..], h)
  }

  /** The trees from (x, y) towards each edge, nearest first. */
  function LeftLine(grid: Grid, x: nat, y: nat): (r: seq<nat>)
    requires WellShaped(grid) && x < |grid| && y < |grid[0]|
    ensures |r| == x && forall k :: 0 <= k < x ==> r[k] == grid[x - 1 - k][y]
  {
    seq(x, k requires 0 <= k < x => grid[x - 1 - k][y])
  }

  function RightLine(grid: Grid, x: nat, y: nat): (r: seq<nat>)
    requires WellShaped(grid) && x < |grid| && y < |grid[0]|
    ensures |r| == |grid| - x - 1 && forall k :: 0 <= k < |r| ==> r[k] == grid[x + 1 + k][y]
  {
    seq(|grid| - x - 1, k requires 0 <= k < |grid| - x - 1 => grid[x + 1 + k][y])
  }

  function UpLine(grid: Grid, x: nat, y: nat): (r: seq<nat>)
    requires WellShaped(grid) && x < |grid| && y < |grid[0]|
    ensures |r| == y && forall k :: 0 <= k < y ==> r[k] == grid[x][y - 1 - k]
  {
    seq(y, k requires 0 <= k < y => grid[x][y - 1 - k])
  }

  function DownLine(grid: Grid, x: nat, y: nat): (r: seq<nat>)
    requires WellShaped(grid) && x < |grid| && y < |grid[0]|
    ensures |r| == |grid[0]| - y - 1 && forall k :: 0 <= k < |r| ==> r[k] == grid[x][y + 1 + k]
  {
    seq(|grid[0]| - y - 1, k requires 0 <= k < |grid[0]| - y - 1 => grid[x][y + 1 + k])
  }

  /** The counts towards each edge: how many trees in a row from (x, y) are
      strictly lower than it; the next tree that way, if any, is at least as
      tall. */
  function LeftCount(grid: Grid, x: nat, y: nat): (n: nat)
    requires WellShaped(grid) && x < |grid| && y < |grid[0]|
    ensures n <= x
    ensures forall i :: x - n <= i < x ==> grid[i][y] < grid[x][y]
    ensures n < x ==> grid[x - 1 - n][y] >= grid[x][y]
  {
    var line := LeftLine(grid, x, y);
    var n := Run(line, grid[x][y]);
    assert forall i :: x - n <= i < x ==> grid[i][y] == line[x - 1 - i];
    n
  }

  function RightCount(grid: Grid, x: nat, y: nat): (n: nat)
    requires WellShaped(grid) && x < |grid| && y < |grid[0]|
    ensures n <= |grid| - x - 1
    ensures forall i :: x < i <= x + n ==> grid[i][y] < grid[x][y]
    ensures n < |grid| - x - 1 ==> grid[x + 1 + n][y] >= grid[x][y]
  {
    var line := RightLine(grid, x, y);
    var n := Run(line, grid[x][y]);
    assert forall i :: x < i <= x + n ==> grid[i][y] == line[i - x - 1];
    n
  }

  function UpCount(grid: Grid, x: nat, y: nat): (n: nat)
    requires WellShaped(grid) && x < |grid| && y < |grid[0]|
    ensures n <= y
    ensures forall j :: y - n <= j < y ==> grid[x][j] < grid[x][y]
    ensures n < y ==> grid[x][y - 1 - n] >= grid[x][y]
  {
    var line := UpLine(grid, x, y);
    var n := Run(line, grid[x][y]);
    assert forall j :: y - n <= j < y ==> grid[x][j] == line[y - 1 - j];
    n
  }

  function DownCount(grid: Grid, x: nat, y: nat): (n: nat)
    requires WellShaped(grid) && x < |grid| && y < |grid[0]|
    ensures n <= |grid[0]| - y - 1
    ensures forall j :: y < j <= y + n ==> grid[x][j] < grid[x][y]
    ensures n < |grid[0]| - y - 1 ==> grid[x][y + 1 + n] >= grid[x][y]
  {
    var line := DownLine(grid, x, y);
    var n := Run(line, grid[x][y]);
    assert forall j :: y < j <= y + n ==> grid[x][j] == line[j - y - 1];
    n
  }

  /** The counts' contracts determine them: any run length with the same two
      properties is the count. */
  lemma LeftCountIs(grid: Grid, x: nat, y: nat, n: nat)
    requires WellShaped(grid) && x < |grid| && y < |grid[0]| && n <= x
    requires forall i :: x - n <= i < x ==> grid[i][y] < grid[x][y]
    requires n < x ==> grid[x - 1 - n][y] >= grid[x][y]
    ensures LeftCount(grid, x, y) == n
  {
  }

  lemma RightCountIs(grid: Grid, x: nat, y: nat, n: nat)
    requires WellShaped(grid) && x < |grid| && y < |grid[0]| && n <= |grid| - x - 1
    requires forall i :: x < i <= x + n ==> grid[i][y] < grid[x][y]
    requires n < |grid| - x - 1 ==> grid[x + 1 + n][y] >= grid[x][y]
    ensures RightCount(grid, x, y) == n
  {
  }

  lemma UpCountIs(grid: Grid, x: nat, y: nat, n: nat)
    requires WellShaped(grid) && x < |grid| && y < |grid[0]| && n <= y
    requires forall j :: y - n <= j < y ==> grid[x][j] < grid[x][y]
    requires n < y ==> grid[x][y - 1 - n] >= grid[x][y]
    ensures UpCount(grid, x, y) == n
  {
  }

  lemma DownCountIs(grid: Grid, x: nat, y: nat, n: nat)
    requires WellShaped(grid) && x < |grid| && y < |grid[0]| && n <= |grid[0]| - y - 1
    requires forall j :: y < j <= y + n ==> grid[x][j] < grid[x][y]
    requires n < |grid[0]| - y - 1 ==> grid[x][y + 1 + n] >= grid[x][y]
    ensures DownCount(grid, x, y) == n
  {
  }

  /** `Visibility`: the four run lengths of one tree. */
  datatype Visibility = Visibility(left: nat, right: nat, up: nat, down: nat)

  /** `calculate_visibility_position` */
  function VisibilityAt(grid: Grid, x: nat, y: nat): (v: Visibility)
    requires WellShaped(grid) && x < |grid| && y < |grid[0]|
    ensures v.left <= x && v.right <= |grid| - x - 1
    ensures v.up <= y && v.down <= |grid[0]| - y - 1
  {
    Visibility(LeftCount(grid, x, y), RightCount(grid, x, y), UpCount(grid, x, y), DownCount(grid, x, y))
  }

  /** `calculate_visibility`: one `Visibility` per tree, in a grid of the same
      dimensions. */
  function CalculateVisibility(grid: Grid): (r: seq<seq<Visibility>>)
    requires WellShaped(grid)
    ensures |r| == |grid|
    ensures forall x :: 0 <= x < |r| ==> |r[x]| == |grid[0]|
    ensures forall x, y :: 0 <= x < |r| && 0 <= y < |grid[0]| ==> r[x][y] == VisibilityAt(grid, x, y)
  {
    seq(|grid|, x requires 0 <= x < |grid| =>
      seq(|grid[0]|, y requires 0 <= y < |grid[0]| => VisibilityAt(grid, x, y)))
  }

  /** The test of `solve_first`: some count reaches the edge. */
  predicate IsVisible(v: Visibility, x: nat, y: nat, width: nat, height: nat)
    requires x < width && y < height
  {
    v.left == x || v.right == width - x - 1 || v.up == y || v.down == height - y - 1
  }

  /** Every tree between (x, y) and the edge in that direction is lower. */
  predicate ClearLeft(grid: Grid, x: nat, y: nat)
    requires WellShaped(grid) && x < |grid| && y < |grid[0]|
  {
    forall i :: 0 <= i < x ==> grid[i][y] < grid[x][y]
  }

  predicate ClearRight(grid: Grid, x: nat, y: nat)
    requires WellShaped(grid) && x < |grid| && y < |grid[0]|
  {
    forall i :: x < i < |grid| ==> grid[i][y] < grid[x][y]
  }

  predicate ClearUp(grid: Grid, x: nat, y: nat)
    requires WellShaped(grid) && x < |grid| && y < |grid[0]|
  {
    forall j :: 0 <= j < y ==> grid[x][j] < grid[x][y]
  }

  predicate ClearDown(grid: Grid, x: nat, y: nat)
    requires WellShaped(grid) && x < |grid| && y < |grid[0]|
  {
    forall j :: y < j < |grid[0]| ==> grid[x][j] < grid[x][y]
  }

  /** The counting test of part 1 is the puzzle's visibility: a tree is
      visible exactly when all trees between it and some edge are lower. */
  lemma VisibleIffClearLine(grid: Grid, x: nat, y: nat)
    requires WellShaped(grid) && x < |grid| && y < |grid[0]|
    ensures IsVisible(VisibilityAt(grid, x, y), x, y, |grid|, |grid[0]|)
            <==> ClearLeft(grid, x, y) || ClearRight(grid, x, y) || ClearUp(grid, x, y) || ClearDown(grid, x, y)
  {
    var v := VisibilityAt(grid, x, y);
    assert v.left < x ==> grid[x - 1 - v.left][y] >= grid[x][y] && !ClearLeft(grid, x, y);
    assert v.right < |grid| - x - 1 ==> grid[x + 1 + v.right][y] >= grid[x][y] && !ClearRight(grid, x, y);
    assert v.up < y ==> grid[x][y - 1 - v.up] >= grid[x][y] && !ClearUp(grid, x, y);
    assert v.down < |grid[0]| - y - 1 ==> grid[x][y + 1 + v.down] >= grid[x][y] && !ClearDown(grid, x, y);
  }

  /** Every tree on the edge is visible. */
  lemma EdgeVisible(grid: Grid, x: nat, y: nat)
    requires WellShaped(grid) && x < |grid| && y < |grid[0]|
    requires x == 0 || y == 0 || x == |grid| - 1 || y == |grid[0]| - 1
    ensures IsVisible(VisibilityAt(grid, x, y), x, y, |grid|, |grid[0]|)
  {
  }

  /** The puzzle's viewing distance: trees are seen up to and including the
      first one at least as tall, or up to the edge. */
  function ViewingDistance(s: seq<nat>, h: nat): (d: nat)
    ensures d <= |s|
  {
    if s == [] then 0 else if s[0] >= h then 1 else 1 + ViewingDistance(s[1..], h)
  }

  /** The correction of `solve_second`, `min(count + 1, distance to edge)`,
      is the viewing distance. */
  lemma {:induction false} CorrectedRunIsViewingDistance(s: seq<nat>, h: nat)
    ensures Min(Run(s, h) + 1, |s|) == ViewingDistance(s, h)
  {
    if s != [] && s[0] < h {
      CorrectedRunIsViewingDistance(s[1..], h);
    }
  }

  function Min(a: nat, b: nat): nat
  {
    if a < b then a else b
  }

  /** The score computed in `solve_second` for one tree. */
  function Scenic(v: Visibility, x: nat, y: nat, width: nat, height: nat): (score: nat)
    requires x < width && y < height
    ensures x == 0 || y == 0 || x == width - 1 || y == height - 1 ==> score == 0
  {
    Min(v.left + 1, x) * Min(v.right + 1, width - x - 1) * Min(v.up + 1, y) * Min(v.down + 1, height - y - 1)
  }

  /** The scenic score of part 2 is the product of the four viewing
      distances. */
  lemma ScenicIsViewingDistances(grid: Grid, x: nat, y: nat)
    requires WellShaped(grid) && x < |grid| && y < |grid[0]|
    ensures var h := grid[x][y];
            Scenic(VisibilityAt(grid, x, y), x, y, |grid|, |grid[0]|)
            == ViewingDistance(LeftLine(grid, x, y), h) * ViewingDistance(RightLine(grid, x, y), h)
               * ViewingDistance(UpLine(grid, x, y), h) * ViewingDistance(DownLine(grid, x, y), h)
  {
    var h := grid[x][y];
    var v := VisibilityAt(grid, x, y);
    var left, right := LeftLine(grid, x, y), RightLine(grid, x, y);
    var up, down := UpLine(grid, x, y), DownLine(grid, x, y);
    CorrectedRunIsViewingDistance(left, h);
    CorrectedRunIsViewingDistance(right, h);
    CorrectedRunIsViewingDistance(up, h);
    CorrectedRunIsViewingDistance(down, h);
    assert Min(v.left + 1, x) == ViewingDistance(left, h);
    assert Min(v.right + 1, |grid| - x - 1) == ViewingDistance(right, h);
    assert Min(v.up + 1, y) == ViewingDistance(up, h);
    assert Min(v.down + 1, |grid[0]| - y - 1) == ViewingDistance(down, h);
  }

  /** What `solve_first` and `solve_second` need of their input: a first row,
      and every row at least as long. */
  predicate Rectangular(vis: seq<seq<Visibility>>)
  {
    |vis| >= 1 && forall x :: 0 <= x < |vis| ==> |vis[x]| >= |vis[0]|
  }

  function Visible(vis: seq<seq<Visibility>>, x: nat, y: nat): bool
    requires Rectangular(vis) && x < |vis| && y < |vis[0]|
  {
    IsVisible(vis[x][y], x, y, |vis|, |vis[0]|)
  }

  /** The visible trees among the first `n` of row `x`. */
  function CountRow(vis: seq<seq<Visibility>>, x: nat, n: nat): (c: nat)
    requires Rectangular(vis) && x < |vis| && n <= |vis[0]|
    ensures c <= n
    ensures c == n <==> forall y :: 0 <= y < n ==> Visible(vis, x, y)
  {
    if n == 0 then 0
    else
      var rest := CountRow(vis, x, n - 1);
      rest + if Visible(vis, x, n - 1) then 1 else 0
  }

  /** The visible trees among the first `m` rows. */
  function CountRows(vis: seq<seq<Visibility>>, m: nat): (c: nat)
    requires Rectangular(vis) && m <= |vis|
    ensures c <= m * |vis[0]|
    ensures c == m * |vis[0]| <==> forall x, y :: 0 <= x < m && 0 <= y < |vis[0]| ==> Visible(vis, x, y)
  {
    if m == 0 then 0
    else
      var h := |vis[0]|;
      var rest := CountRows(vis, m - 1);
      var row := CountRow(vis, m - 1, h);
      assert (m - 1) * h + h == m * h;
      rest + row
  }

  /** `solve_first`: the number of visible trees, at most one per tree, and
      all of them exactly when every tree is visible. */
  function SolveFirst(vis: seq<seq<Visibility>>): (c: nat)
    requires Rectangular(vis)
    ensures c <= |vis| * |vis[0]|
    ensures c == |vis| * |vis[0]| <==> forall x, y :: 0 <= x < |vis| && 0 <= y < |vis[0]| ==> Visible(vis, x, y)
  {
    CountRows(vis, |vis|)
  }

  function Score(vis: seq<seq<Visibility>>, x: nat, y: nat): nat
    requires Rectangular(vis) && x < |vis| && y < |vis[0]|
  {
    Scenic(vis[x][y], x, y, |vis|, |vis[0]|)
  }

  /** The best score among the first `n` trees of row `x`. */
  function RowBest(vis: seq<seq<Visibility>>, x: nat, n: nat): (b: nat)
    requires Rectangular(vis) && x < |vis| && 1 <= n <= |vis[0]|
    ensures exists y :: 0 <= y < n && b == Score(vis, x, y)
    ensures forall y :: 0 <= y < n ==> Score(vis, x, y) <= b
  {
    var s := Score(vis, x, n - 1);
    if n == 1 then s
    else
      var rest := RowBest(vis, x, n - 1);
      if s >= rest then s else rest
  }

  /** The best score among the first `m` rows. */
  function Best(vis: seq<seq<Visibility>>, m: nat): (b: nat)
    requires Rectangular(vis) && |vis[0]| >= 1 && 1 <= m <= |vis|
    ensures exists x, y :: 0 <= x < m && 0 <= y < |vis[0]| && b == Score(vis, x, y)
    ensures forall x, y :: 0 <= x < m && 0 <= y < |vis[0]| ==> Score(vis, x, y) <= b
  {
    var s := RowBest(vis, m - 1, |vis[0]|);
    if m == 1 then s
    else
      var rest := Best(vis, m - 1);
      if s >= rest then s else rest
  }

  /** `solve_second`: the highest scenic score of any tree; the `unwrap`s
      need at least one tree. */
  function SolveSecond(vis: seq<seq<Visibility>>): (b: nat)
    requires Rectangular(vis) && |vis[0]| >= 1
    ensures exists x, y :: 0 <= x < |vis| && 0 <= y < |vis[0]| && b == Score(vis, x, y)
    ensures forall x, y :: 0 <= x < |vis| && 0 <= y < |vis[0]| ==> Score(vis, x, y) <= b
  {
    Best(vis, |vis|)
  }

  /** The answer of part 2 is any score that some tree reaches and no tree
      exceeds. */
  lemma SolveSecondIs(vis: seq<seq<Visibility>>, m: nat, x0: nat, y0: nat)
    requires Rectangular(vis) && x0 < |vis| && y0 < |vis[0]|
    requires Score(vis, x0, y0) == m
    requires forall x, y :: 0 <= x < |vis| && 0 <= y < |vis[0]| ==> Score(vis, x, y) <= m
    ensures SolveSecond(vis) == m
  {
  }

  /** `ch.to_digit(10).unwrap()` over a line: a non-digit panics (`None`). */
  function ParseRow(line: string): (r: Option<seq<nat>>)
    ensures r.Some? <==> AllDigits(line)
    ensures r.Some? ==> |r.value| == |line| && forall i :: 0 <= i < |line| ==> r.value[i] == DigitValue(line[i])
  {
    if line == [] then Some([])
    else if !IsDigit(line[0]) then None
    else
      match ParseRow(line[1..])
      case None => None
      case Some(rest) => Some([DigitValue(line[0])] + rest)
  }

  /** The grid: one row per non-empty line. */
  function ParseRows(lines: seq<string>): (r: Option<Grid>)
    ensures r.Some? ==> forall x :: 0 <= x < |r.value| ==> |r.value[x]| >= 1 && forall i :: 0 <= i < |r.value[x]| ==> r.value[x][i] < 10
  {
    if lines == [] then Some([])
    else
      match ParseRow(lines[0])
      case None => None
      case Some(row) =>
        match ParseRows(lines[1..])
        case None => None
        case Some(rest) => if row == [] then Some(rest) else Some([row] + rest)
  }

  /** A line written with the digits of a row parses to that row. */
  lemma ParseDigitRow(line: string, row: seq<nat>)
    requires |line| == |row|
    requires forall i :: 0 <= i < |row| ==> row[i] < 10 && line[i] == DigitChar(row[i])
    ensures ParseRow(line) == Some(row)
  {
    assert AllDigits(line);
    assert ParseRow(line).value == row;
  }

  /** Lines that each parse to a non-empty row give the grid of those rows. */
  lemma {:induction false} ParseRowsOf(lines: seq<string>, grid: Grid)
    requires |lines| == |grid|
    requires forall x :: 0 <= x < |lines| ==> grid[x] != [] && ParseRow(lines[x]) == Some(grid[x])
    ensures ParseRows(lines) == Some(grid)
  {
    if lines != [] {
      ParseRowsOf(lines[1..], grid[1..]);
      assert [grid[0]] + grid[1..] == grid;
    }
  }

  /** `parse_input`: rows of digits, then their visibility grid. No rows, or
      a row shorter than the first, makes `calculate_visibility` panic. */
  function ParseInput(lines: seq<string>): (r: Option<seq<seq<Visibility>>>)
    ensures r.Some? ==> Rectangular(r.value) && |r.value[0]| >= 1
  {
    match ParseRows(lines)
    case None => None
    case Some(grid) =>
      if WellShaped(grid) then
        var vis := CalculateVisibility(grid);
        assert |vis[0]| == |grid[0]| >= 1;
        Some(vis)
      else None
  }
}
