/** Day 9: a rope on a grid. The input's moves are expanded into unit steps
    and accumulated into the head's positions; each knot follows the one in
    front of it. Part 1 counts the distinct positions of the knot behind the
    head; part 2 those of the tenth knot, nine follows down the rope. */
module Day09 {
  import opened Common
  import opened Text

  /** `Vec2D` */
  datatype Vec2D = Vec2D(x: int, y: int)

  const Origin := Vec2D(0, 0)

  /** `Vec2D + Vec2D` */
  function Add(a: Vec2D, b: Vec2D): Vec2D
  {
    Vec2D(a.x + b.x, a.y + b.y)
  }

  /** Addition is componentwise, so it is commutative and associative and
      the origin is neutral. */
  lemma AddLaws(a: Vec2D, b: Vec2D, c: Vec2D)
    ensures Add(a, b) == Add(b, a)
    ensures Add(Add(a, b), c) == Add(a, Add(b, c))
    ensures Add(a, Origin) == a
  {
  }

  function Abs(i: int): nat
  {
    if i < 0 then -i else i
  }

  /** `i64::signum` */
  function Signum(i: int): (s: int)
    ensures s == -1 || s == 0 || s == 1
    ensures (s > 0 <==> i > 0) && (s < 0 <==> i < 0)
  {
    if i > 0 then 1 else if i < 0 then -1 else 0
  }

  /** The two positions are within one unit of each other in both
      coordinates (they touch, diagonals included). */
  predicate Near(a: Vec2D, b: Vec2D)
  {
    Abs(a.x - b.x) <= 1 && Abs(a.y - b.y) <= 1
  }

  /** `Vec2D::follow`: a knot next to its target stays put; otherwise it steps
      one unit towards it along each coordinate that differs. */
  function Follow(knot: Vec2D, target: Vec2D): (r: Vec2D)
    ensures Near(knot, target) ==> r == knot
    ensures Near(r, knot)
    ensures Abs(target.x - r.x) <= Abs(target.x - knot.x)
    ensures Abs(target.y - r.y) <= Abs(target.y - knot.y)
    ensures !Near(knot, target) ==> Abs(target.x - r.x) + Abs(target.y - r.y) < Abs(target.x - knot.x) + Abs(target.y - knot.y)
  {
    if Near(knot, target) then knot
    else Add(knot, Vec2D(Signum(target.x - knot.x), Signum(target.y - knot.y)))
  }

  /** A knot at most two units away along each coordinate ends up touching
      its target. */
  lemma FollowCatchesUp(knot: Vec2D, target: Vec2D)
    requires Abs(target.x - knot.x) <= 2 && Abs(target.y - knot.y) <= 2
    ensures Near(Follow(knot, target), target)
  {
  }

  /** The free `follow`: the scan that moves a knot, starting at `start`,
      after each position of the knot in front, and records where it is. */
  function FollowAll(start: Vec2D, targets: seq<Vec2D>): (r: seq<Vec2D>)
    ensures |r| == |targets|
    ensures |r| > 0 ==> r[0] == Follow(start, targets[0])
    ensures forall i {:trigger targets[i]} :: 0 < i < |r| ==> r[i] == Follow(r[i - 1], targets[i])
    decreases |targets|
  {
    if targets == [] then []
    else
      var next := Follow(start, targets[0]);
      var rest := FollowAll(next, targets[1..]);
      assert forall i :: 1 <= i < |targets| ==> targets[1..][i - 1] == targets[i];
      [next] + rest
  }

  /** `FollowAll` is the only sequence that starts with a follow of `start`
      and follows the target at every later step. */
  lemma {:induction false} FollowAllIs(start: Vec2D, targets: seq<Vec2D>, r: seq<Vec2D>)
    requires |r| == |targets|
    requires |r| > 0 ==> r[0] == Follow(start, targets[0])
    requires forall i :: 0 < i < |r| ==> FollowsAt(r, targets, i)
    ensures FollowAll(start, targets) == r
  {
    var f := FollowAll(start, targets);
    forall i | 0 <= i < |r|
      ensures f[i] == r[i]
    {
      FollowAllPrefix(start, targets, r, i);
    }
  }

  /** Position `i` of `r` is a follow of the target from position `i - 1`. */
  predicate FollowsAt(r: seq<Vec2D>, targets: seq<Vec2D>, i: int)
  {
    0 < i < |r| && i < |targets| && r[i] == Follow(r[i - 1], targets[i])
  }

  lemma {:induction false} FollowAllPrefix(start: Vec2D, targets: seq<Vec2D>, r: seq<Vec2D>, i: nat)
    requires i < |r| == |targets|
    requires |r| > 0 ==> r[0] == Follow(start, targets[0])
    requires forall i :: 0 < i < |r| ==> FollowsAt(r, targets, i)
    ensures FollowAll(start, targets)[i] == r[i]
  {
    if i > 0 {
      FollowAllPrefix(start, targets, r, i - 1);
      assert FollowsAt(r, targets, i);
    }
  }

  /** `s` is a walk from `p` in which every position touches the one before:
      what the head does, one unit step at a time. */
  predicate Walk(p: Vec2D, s: seq<Vec2D>)
  {
    (|s| > 0 ==> Near(p, s[0])) && forall i :: 0 < i < |s| ==> Touches(s, i)
  }

  /** Position `i` of `s` touches the one before it. */
  predicate Touches(s: seq<Vec2D>, i: int)
  {
    0 < i < |s| && Near(s[i - 1], s[i])
  }

  /** Following a walk: a knot that starts touching the walk's start keeps
      touching the knot in front, and its own positions form a walk too. So
      the rope stays connected however many knots follow one another. */
  lemma {:induction false} FollowWalk(p: Vec2D, start: Vec2D, targets: seq<Vec2D>)
    requires Walk(p, targets) && Near(start, p)
    ensures Walk(start, FollowAll(start, targets))
    ensures forall i :: 0 <= i < |targets| ==> Near(FollowAll(start, targets)[i], targets[i])
    decreases |targets|
  {
    if targets != [] {
      var next := Follow(start, targets[0]);
      FollowCatchesUp(start, targets[0]);
      WalkTail(p, targets);
      FollowWalk(targets[0], next, targets[1..]);
      NearFromTail(start, targets);
      NearMeansWalk(start, targets);
    }
  }

  /** After its first step, a walk is a walk from that step. */
  lemma WalkTail(p: Vec2D, targets: seq<Vec2D>)
    requires Walk(p, targets) && |targets| > 0
    ensures Walk(targets[0], targets[1..])
  {
    var rest := targets[1..];
    assert |rest| > 0 ==> Touches(targets, 1);
    forall i | 0 < i < |rest|
      ensures Touches(rest, i)
    {
      assert rest[i - 1] == targets[i] && rest[i] == targets[i + 1] && Touches(targets, i + 1);
    }
  }

  /** The follower is near its target at the first step and, by the rest of
      the scan, at every later one. */
  lemma NearFromTail(start: Vec2D, targets: seq<Vec2D>)
    requires |targets| > 0
    requires Near(Follow(start, targets[0]), targets[0])
    requires var rest := targets[1..];
      forall i :: 0 <= i < |rest| ==> Near(FollowAll(Follow(start, targets[0]), rest)[i], rest[i])
    ensures forall i :: 0 <= i < |targets| ==> Near(FollowAll(start, targets)[i], targets[i])
  {
    var r, rest := FollowAll(start, targets), targets[1..];
    var tail := FollowAll(Follow(start, targets[0]), rest);
    assert r[1..] == tail;
    forall i | 0 < i < |targets|
      ensures Near(r[i], targets[i])
    {
      assert r[i] == tail[i - 1] && targets[i] == rest[i - 1];
    }
  }

  /** A follower near every step of a walk makes a walk itself. */
  lemma NearMeansWalk(start: Vec2D, targets: seq<Vec2D>)
    requires forall i :: 0 < i < |targets| ==> Touches(targets, i)
    requires forall i :: 0 <= i < |targets| ==> Near(FollowAll(start, targets)[i], targets[i])
    ensures forall i :: 0 < i < |targets| ==> Touches(FollowAll(start, targets), i)
  {
    var r := FollowAll(start, targets);
    forall i | 0 < i < |r|
      ensures Touches(r, i)
    {
      assert r[i] == Follow(r[i - 1], targets[i]);
    }
  }

  /** The rope after `n` follows of the head's positions, every knot starting
      at `start` (the origin in the puzzle). */
  function Knot(start: Vec2D, heads: seq<Vec2D>, n: nat): (r: seq<Vec2D>)
    ensures |r| == |heads|
  {
    if n == 0 then heads else FollowAll(start, Knot(start, heads, n - 1))
  }

  /** Every knot of a rope whose head walks from the common start walks from
      there too, touching the knot in front at every step. */
  lemma {:induction false} KnotsWalk(start: Vec2D, heads: seq<Vec2D>, n: nat)
    requires Walk(start, heads)
    ensures Walk(start, Knot(start, heads, n))
    ensures n > 0 ==> forall i :: 0 <= i < |heads| ==> Near(Knot(start, heads, n)[i], Knot(start, heads, n - 1)[i])
  {
    if n > 0 {
      var front := Knot(start, heads, n - 1);
      KnotsWalk(start, heads, n - 1);
      FollowWalk(start, start, front);
      assert Knot(start, heads, n) == FollowAll(start, front);
    }
  }

  function Elems(s: seq<Vec2D>): set<Vec2D>
  {
    set p | p in s
  }

  lemma {:induction false} ElemsBound(s: seq<Vec2D>)
    ensures |Elems(s)| <= |s|
  {
    if s != [] {
      ElemsBound(s[..|s| - 1]);
      assert Elems(s) == Elems(s[..|s| - 1]) + {s[|s| - 1]};
    }
  }

  /** A sequence without repeats has as many distinct positions as elements. */
  lemma {:induction false} ElemsOfDistinct(s: seq<Vec2D>)
    requires forall i, j :: 0 <= i < j < |s| ==> s[i] != s[j]
    ensures |Elems(s)| == |s|
  {
    if s != [] {
      var init := s[..|s| - 1];
      ElemsOfDistinct(init);
      assert Elems(s) == Elems(init) + {s[|s| - 1]};
      assert s[|s| - 1] !in Elems(init);
    }
  }

  /** The number of distinct positions (`collect::<HashSet<_>>().len()`). */
  function DistinctCount(s: seq<Vec2D>): (n: nat)
    ensures n <= |s|
    ensures |s| > 0 ==> n >= 1
  {
    ElemsBound(s);
    assert |s| > 0 ==> s[0] in Elems(s);
    |Elems(s)|
  }

  /** `solve_first` */
  function SolveFirst(heads: seq<Vec2D>): (n: nat)
    ensures n <= |heads|
  {
    DistinctCount(Knot(Origin, heads, 1))
  }

  /** `solve_second` */
  function SolveSecond(heads: seq<Vec2D>): (n: nat)
    ensures n <= |heads|
  {
    DistinctCount(Knot(Origin, heads, 9))
  }

  /** The unit step of a direction letter. */
  function Direction(letter: string): (r: Option<Vec2D>)
    ensures r.Some? <==> letter in ["L", "R", "U", "D"]
    ensures r.Some? ==> IsUnit(r.value)
  {
    if letter == "L" then Some(Vec2D(-1, 0))
    else if letter == "R" then Some(Vec2D(1, 0))
    else if letter == "U" then Some(Vec2D(0, 1))
    else if letter == "D" then Some(Vec2D(0, -1))
    else None
  }

  predicate IsUnit(v: Vec2D)
  {
    Abs(v.x) + Abs(v.y) == 1
  }

  function Repeat(v: Vec2D, n: nat): (r: seq<Vec2D>)
    ensures |r| == n && forall i :: 0 <= i < n ==> r[i] == v
  {
    if n == 0 then [] else [v] + Repeat(v, n - 1)
  }

  /** One line `D n`: `n` unit steps in direction `D`. Fewer than two words,
      a bad count or an unknown letter panics (`None`). */
  function ParseLine(line: string): (r: Option<seq<Vec2D>>)
    ensures r.Some? ==> |Words(line)| >= 2 && ParseNat(Words(line)[1]) == Some(|r.value|)
    ensures r.Some? ==> forall i :: 0 <= i < |r.value| ==> IsUnit(r.value[i]) && Some(r.value[i]) == Direction(Words(line)[0])
    ensures r.None? <==> |Words(line)| < 2 || ParseNat(Words(line)[1]).None? || Direction(Words(line)[0]).None?
  {
    var words := Words(line);
    if |words| < 2 then None
    else
      match ParseNat(words[1])
      case None => None
      case Some(count) =>
        match Direction(words[0])
        case None => None
        case Some(d) => Some(Repeat(d, count))
  }

  /** The letter that names a unit step. */
  function Letter(v: Vec2D): string
  {
    if v == Vec2D(-1, 0) then "L"
    else if v == Vec2D(1, 0) then "R"
    else if v == Vec2D(0, 1) then "U"
    else "D"
  }

  /** Writing `count` steps as a line and parsing it gives the steps back. */
  lemma ParseLineOfMove(d: Vec2D, count: nat)
    requires d in [Vec2D(-1, 0), Vec2D(1, 0), Vec2D(0, 1), Vec2D(0, -1)]
    ensures ParseLine(Letter(d) + " " + ShowNat(count)) == Some(Repeat(d, count))
  {
    var line := Letter(d) + " " + ShowNat(count);
    var words := [Letter(d), ShowNat(count)];
    assert forall k :: 0 <= k < |words| ==> IsWord(words[k], IsWhitespace);
    FieldsOfJoin(words, IsWhitespace);
    assert Join(words, " ") == line;
    ParseShowNat(count);
    assert Direction(words[0]) == Some(d);
    assert Words(line)[1] == ShowNat(count);
  }

  /** The unit steps of all lines, in order (`flat_map`). */
  function ParseSteps(lines: seq<string>): (r: Option<seq<Vec2D>>)
    ensures r.Some? ==> forall i :: 0 <= i < |r.value| ==> IsUnit(r.value[i])
  {
    if lines == [] then Some([])
    else
      match ParseLine(lines[0])
      case None => None
      case Some(steps) =>
        match ParseSteps(lines[1..])
        case None => None
        case Some(rest) => Some(steps + rest)
  }

  /** The running sums of the steps from `start` (`scan`), one position per
      step. */
  function Positions(start: Vec2D, steps: seq<Vec2D>): (r: seq<Vec2D>)
    ensures |r| == |steps|
    ensures |r| > 0 ==> r[0] == Add(start, steps[0])
    ensures forall i {:trigger steps[i]} :: 0 < i < |r| ==> r[i] == Add(r[i - 1], steps[i])
    decreases |steps|
  {
    if steps == [] then []
    else
      var next := Add(start, steps[0]);
      var rest := Positions(next, steps[1..]);
      assert forall i :: 1 <= i < |steps| ==> steps[1..][i - 1] == steps[i];
      [next] + rest
  }

  /** The sum of a sequence of vectors. */
  function SumVec(steps: seq<Vec2D>): Vec2D
  {
    if steps == [] then Origin else Add(SumVec(steps[..|steps| - 1]), steps[|steps| - 1])
  }

  /** Every position is the start plus the steps taken so far. */
  lemma {:induction false} PositionIsSum(start: Vec2D, steps: seq<Vec2D>, i: nat)
    requires i < |steps|
    ensures Positions(start, steps)[i] == Add(start, SumVec(steps[..i + 1]))
  {
    var r := Positions(start, steps);
    assert steps[..i + 1][..i] == steps[..i];
    if i == 0 {
      assert steps[..0] == [];
    } else {
      PositionIsSum(start, steps, i - 1);
      assert r[i] == Add(r[i - 1], steps[i]);
    }
  }

  /** `Positions` is the only sequence that starts one step from `start` and
      adds the next step at every later position. */
  lemma {:induction false} PositionsIs(start: Vec2D, steps: seq<Vec2D>, r: seq<Vec2D>)
    requires |r| == |steps|
    requires |r| > 0 ==> r[0] == Add(start, steps[0])
    requires forall i :: 0 < i < |r| ==> AddsAt(r, steps, i)
    ensures Positions(start, steps) == r
  {
    var p := Positions(start, steps);
    forall i | 0 <= i < |r|
      ensures p[i] == r[i]
    {
      PositionsPrefix(start, steps, r, i);
    }
  }

  /** Position `i` of `r` is position `i - 1` plus step `i`. */
  predicate AddsAt(r: seq<Vec2D>, steps: seq<Vec2D>, i: int)
  {
    0 < i < |r| && i < |steps| && r[i] == Add(r[i - 1], steps[i])
  }

  lemma {:induction false} PositionsPrefix(start: Vec2D, steps: seq<Vec2D>, r: seq<Vec2D>, i: nat)
    requires i < |r| == |steps|
    requires |r| > 0 ==> r[0] == Add(start, steps[0])
    requires forall i :: 0 < i < |r| ==> AddsAt(r, steps, i)
    ensures Positions(start, steps)[i] == r[i]
  {
    if i > 0 {
      PositionsPrefix(start, steps, r, i - 1);
      assert AddsAt(r, steps, i);
    }
  }

  /** Unit steps make the head walk. */
  lemma UnitStepsWalk(start: Vec2D, steps: seq<Vec2D>)
    requires forall i :: 0 <= i < |steps| ==> IsUnit(steps[i])
    ensures Walk(start, Positions(start, steps))
  {
    var r := Positions(start, steps);
    forall i | 0 < i < |r|
      ensures Touches(r, i)
    {
      assert r[i] == Add(r[i - 1], steps[i]);
    }
  }

  /** `parse_input`: the head's positions, starting from the origin. */
  function ParseInput(lines: seq<string>): (r: Option<seq<Vec2D>>)
    ensures r.Some? ==> Walk(Origin, r.value)
  {
    match ParseSteps(lines)
    case None => None
    case Some(steps) =>
      UnitStepsWalk(Origin, steps);
      Some(Positions(Origin, steps))
  }
}
