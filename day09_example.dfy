/** The worked example of day 9: the moves R 4, U 4, L 3, D 1, R 4, D 1, L 5,
    R 2. The knot behind the head visits 13 positions; the tenth knot never
    leaves the origin. */
module Day09Example {
  import opened Day09

  /** The example's moves, one unit step each. */
  const ExampleSteps: seq<Vec2D> := Repeat(Vec2D(1, 0), 4) + Repeat(Vec2D(0, 1), 4) + Repeat(Vec2D(-1, 0), 3) + Repeat(Vec2D(0, -1), 1) + Repeat(Vec2D(1, 0), 4) + Repeat(Vec2D(0, -1), 1) + Repeat(Vec2D(-1, 0), 5) + Repeat(Vec2D(1, 0), 2)

  /** The head's positions. */
  const ExampleHeads: seq<Vec2D> := [Vec2D(1, 0), Vec2D(2, 0), Vec2D(3, 0), Vec2D(4, 0), Vec2D(4, 1), Vec2D(4, 2), Vec2D(4, 3), Vec2D(4, 4), Vec2D(3, 4), Vec2D(2, 4), Vec2D(1, 4), Vec2D(1, 3), Vec2D(2, 3), Vec2D(3, 3), Vec2D(4, 3), Vec2D(5, 3), Vec2D(5, 2), Vec2D(4, 2), Vec2D(3, 2), Vec2D(2, 2), Vec2D(1, 2), Vec2D(0, 2), Vec2D(1, 2), Vec2D(2, 2)]

  const ExampleKnot1: seq<Vec2D> := [Vec2D(0, 0), Vec2D(1, 0), Vec2D(2, 0), Vec2D(3, 0), Vec2D(3, 0), Vec2D(4, 1), Vec2D(4, 2), Vec2D(4, 3), Vec2D(4, 3), Vec2D(3, 4), Vec2D(2, 4), Vec2D(2, 4), Vec2D(2, 4), Vec2D(2, 4), Vec2D(3, 3), Vec2D(4, 3), Vec2D(4, 3), Vec2D(4, 3), Vec2D(4, 3), Vec2D(3, 2), Vec2D(2, 2), Vec2D(1, 2), Vec2D(1, 2), Vec2D(1, 2)]
  const ExampleKnot2: seq<Vec2D> := [Vec2D(0, 0), Vec2D(0, 0), Vec2D(1, 0), Vec2D(2, 0), Vec2D(2, 0), Vec2D(3, 1), Vec2D(3, 1), Vec2D(4, 2), Vec2D(4, 2), Vec2D(3, 3), Vec2D(3, 3), Vec2D(3, 3), Vec2D(3, 3), Vec2D(3, 3), Vec2D(3, 3), Vec2D(3, 3), Vec2D(3, 3), Vec2D(3, 3), Vec2D(3, 3), Vec2D(3, 3), Vec2D(3, 3), Vec2D(2, 2), Vec2D(2, 2), Vec2D(2, 2)]
  const ExampleKnot3: seq<Vec2D> := [Vec2D(0, 0), Vec2D(0, 0), Vec2D(0, 0), Vec2D(1, 0), Vec2D(1, 0), Vec2D(2, 1), Vec2D(2, 1), Vec2D(3, 2), Vec2D(3, 2), Vec2D(3, 2), Vec2D(3, 2), Vec2D(3, 2), Vec2D(3, 2), Vec2D(3, 2), Vec2D(3, 2), Vec2D(3, 2), Vec2D(3, 2), Vec2D(3, 2), Vec2D(3, 2), Vec2D(3, 2), Vec2D(3, 2), Vec2D(3, 2), Vec2D(3, 2), Vec2D(3, 2)]
  const ExampleKnot4: seq<Vec2D> := [Vec2D(0, 0), Vec2D(0, 0), Vec2D(0, 0), Vec2D(0, 0), Vec2D(0, 0), Vec2D(1, 1), Vec2D(1, 1), Vec2D(2, 2), Vec2D(2, 2), Vec2D(2, 2), Vec2D(2, 2), Vec2D(2, 2), Vec2D(2, 2), Vec2D(2, 2), Vec2D(2, 2), Vec2D(2, 2), Vec2D(2, 2), Vec2D(2, 2), Vec2D(2, 2), Vec2D(2, 2), Vec2D(2, 2), Vec2D(2, 2), Vec2D(2, 2), Vec2D(2, 2)]
  const ExampleKnot5: seq<Vec2D> := [Vec2D(0, 0), Vec2D(0, 0), Vec2D(0, 0), Vec2D(0, 0), Vec2D(0, 0), Vec2D(0, 0), Vec2D(0, 0), Vec2D(1, 1), Vec2D(1, 1), Vec2D(1, 1), Vec2D(1, 1), Vec2D(1, 1), Vec2D(1, 1), Vec2D(1, 1), Vec2D(1, 1), Vec2D(1, 1), Vec2D(1, 1), Vec2D(1, 1), Vec2D(1, 1), Vec2D(1, 1), Vec2D(1, 1), Vec2D(1, 1), Vec2D(1, 1), Vec2D(1, 1)]
  const ExampleKnot6: seq<Vec2D> := [Vec2D(0, 0), Vec2D(0, 0), Vec2D(0, 0), Vec2D(0, 0), Vec2D(0, 0), Vec2D(0, 0), Vec2D(0, 0), Vec2D(0, 0), Vec2D(0, 0), Vec2D(0, 0), Vec2D(0, 0), Vec2D(0, 0), Vec2D(0, 0), Vec2D(0, 0), Vec2D(0, 0), Vec2D(0, 0), Vec2D(0, 0), Vec2D(0, 0), Vec2D(0, 0), Vec2D(0, 0), Vec2D(0, 0), Vec2D(0, 0), Vec2D(0, 0), Vec2D(0, 0)]
  const ExampleKnot7: seq<Vec2D> := [Vec2D(0, 0), Vec2D(0, 0), Vec2D(0, 0), Vec2D(0, 0), Vec2D(0, 0), Vec2D(0, 0), Vec2D(0, 0), Vec2D(0, 0), Vec2D(0, 0), Vec2D(0, 0), Vec2D(0, 0), Vec2D(0, 0), Vec2D(0, 0), Vec2D(0, 0), Vec2D(0, 0), Vec2D(0, 0), Vec2D(0, 0), Vec2D(0, 0), Vec2D(0, 0), Vec2D(0, 0), Vec2D(0, 0), Vec2D(0, 0), Vec2D(0, 0), Vec2D(0, 0)]
  const ExampleKnot8: seq<Vec2D> := [Vec2D(0, 0), Vec2D(0, 0), Vec2D(0, 0), Vec2D(0, 0), Vec2D(0, 0), Vec2D(0, 0), Vec2D(0, 0), Vec2D(0, 0), Vec2D(0, 0), Vec2D(0, 0), Vec2D(0, 0), Vec2D(0, 0), Vec2D(0, 0), Vec2D(0, 0), Vec2D(0, 0), Vec2D(0, 0), Vec2D(0, 0), Vec2D(0, 0), Vec2D(0, 0), Vec2D(0, 0), Vec2D(0, 0), Vec2D(0, 0), Vec2D(0, 0), Vec2D(0, 0)]
  const ExampleKnot9: seq<Vec2D> := [Vec2D(0, 0), Vec2D(0, 0), Vec2D(0, 0), Vec2D(0, 0), Vec2D(0, 0), Vec2D(0, 0), Vec2D(0, 0), Vec2D(0, 0), Vec2D(0, 0), Vec2D(0, 0), Vec2D(0, 0), Vec2D(0, 0), Vec2D(0, 0), Vec2D(0, 0), Vec2D(0, 0), Vec2D(0, 0), Vec2D(0, 0), Vec2D(0, 0), Vec2D(0, 0), Vec2D(0, 0), Vec2D(0, 0), Vec2D(0, 0), Vec2D(0, 0), Vec2D(0, 0)]

  lemma ExampleStepsAre()
    ensures ExampleSteps == [Vec2D(1, 0), Vec2D(1, 0), Vec2D(1, 0), Vec2D(1, 0), Vec2D(0, 1), Vec2D(0, 1), Vec2D(0, 1), Vec2D(0, 1), Vec2D(-1, 0), Vec2D(-1, 0), Vec2D(-1, 0), Vec2D(0, -1), Vec2D(1, 0), Vec2D(1, 0), Vec2D(1, 0), Vec2D(1, 0), Vec2D(0, -1), Vec2D(-1, 0), Vec2D(-1, 0), Vec2D(-1, 0), Vec2D(-1, 0), Vec2D(-1, 0), Vec2D(1, 0), Vec2D(1, 0)]
  {
    assert Repeat(Vec2D(1, 0), 4) == [Vec2D(1, 0), Vec2D(1, 0), Vec2D(1, 0), Vec2D(1, 0)];
    assert Repeat(Vec2D(0, 1), 4) == [Vec2D(0, 1), Vec2D(0, 1), Vec2D(0, 1), Vec2D(0, 1)];
    assert Repeat(Vec2D(-1, 0), 3) == [Vec2D(-1, 0), Vec2D(-1, 0), Vec2D(-1, 0)];
    assert Repeat(Vec2D(0, -1), 1) == [Vec2D(0, -1)];
    assert Repeat(Vec2D(1, 0), 4) == [Vec2D(1, 0), Vec2D(1, 0), Vec2D(1, 0), Vec2D(1, 0)];
    assert Repeat(Vec2D(0, -1), 1) == [Vec2D(0, -1)];
    assert Repeat(Vec2D(-1, 0), 5) == [Vec2D(-1, 0), Vec2D(-1, 0), Vec2D(-1, 0), Vec2D(-1, 0), Vec2D(-1, 0)];
    assert Repeat(Vec2D(1, 0), 2) == [Vec2D(1, 0), Vec2D(1, 0)];
  }

  lemma ExampleAddsAt(i: nat)
    requires 0 < i < 24
    ensures AddsAt(ExampleHeads, [Vec2D(1, 0), Vec2D(1, 0), Vec2D(1, 0), Vec2D(1, 0), Vec2D(0, 1), Vec2D(0, 1), Vec2D(0, 1), Vec2D(0, 1), Vec2D(-1, 0), Vec2D(-1, 0), Vec2D(-1, 0), Vec2D(0, -1), Vec2D(1, 0), Vec2D(1, 0), Vec2D(1, 0), Vec2D(1, 0), Vec2D(0, -1), Vec2D(-1, 0), Vec2D(-1, 0), Vec2D(-1, 0), Vec2D(-1, 0), Vec2D(-1, 0), Vec2D(1, 0), Vec2D(1, 0)], i)
  {
  }

  /** The head's positions are the running sums of the example's steps. */
  lemma ExampleHeadsArePositions()
    ensures Positions(Origin, ExampleSteps) == ExampleHeads
  {
    ExampleStepsAre();
    forall i | 0 < i < |ExampleHeads|
      ensures AddsAt(ExampleHeads, ExampleSteps, i)
    {
      ExampleAddsAt(i);
    }
    PositionsIs(Origin, ExampleSteps, ExampleHeads);
  }

  lemma ExampleFollows1From0(i: nat)
    requires 0 < i < 6
    ensures FollowsAt(ExampleKnot1, ExampleHeads, i)
  {
  }

  lemma ExampleFollows1From6(i: nat)
    requires 6 <= i < 12
    ensures FollowsAt(ExampleKnot1, ExampleHeads, i)
  {
  }

  lemma ExampleFollows1From12(i: nat)
    requires 12 <= i < 18
    ensures FollowsAt(ExampleKnot1, ExampleHeads, i)
  {
  }

  lemma ExampleFollows1From18(i: nat)
    requires 18 <= i < 24
    ensures FollowsAt(ExampleKnot1, ExampleHeads, i)
  {
  }

  lemma ExampleFollow1()
    ensures FollowAll(Origin, ExampleHeads) == ExampleKnot1
  {
    assert Near(Vec2D(0, 0), Vec2D(1, 0));
    assert ExampleKnot1[0] == Follow(Origin, ExampleHeads[0]);
    forall i | 0 < i < |ExampleKnot1|
      ensures FollowsAt(ExampleKnot1, ExampleHeads, i)
    {
      if i < 6 {
        ExampleFollows1From0(i);
      } else if i < 12 {
        ExampleFollows1From6(i);
      } else if i < 18 {
        ExampleFollows1From12(i);
      } else {
        ExampleFollows1From18(i);
      }
    }
    FollowAllIs(Origin, ExampleHeads, ExampleKnot1);
  }

  lemma ExampleFollows2From0(i: nat)
    requires 0 < i < 6
    ensures FollowsAt(ExampleKnot2, ExampleKnot1, i)
  {
  }

  lemma ExampleFollows2From6(i: nat)
    requires 6 <= i < 12
    ensures FollowsAt(ExampleKnot2, ExampleKnot1, i)
  {
  }

  lemma ExampleFollows2From12(i: nat)
    requires 12 <= i < 18
    ensures FollowsAt(ExampleKnot2, ExampleKnot1, i)
  {
  }

  lemma ExampleFollows2From18(i: nat)
    requires 18 <= i < 24
    ensures FollowsAt(ExampleKnot2, ExampleKnot1, i)
  {
  }

  lemma ExampleFollow2()
    ensures FollowAll(Origin, ExampleKnot1) == ExampleKnot2
  {
    assert Near(Vec2D(0, 0), Vec2D(0, 0));
    assert ExampleKnot2[0] == Follow(Origin, ExampleKnot1[0]);
    forall i | 0 < i < |ExampleKnot2|
      ensures FollowsAt(ExampleKnot2, ExampleKnot1, i)
    {
      if i < 6 {
        ExampleFollows2From0(i);
      } else if i < 12 {
        ExampleFollows2From6(i);
      } else if i < 18 {
        ExampleFollows2From12(i);
      } else {
        ExampleFollows2From18(i);
      }
    }
    FollowAllIs(Origin, ExampleKnot1, ExampleKnot2);
  }

  lemma ExampleFollows3From0(i: nat)
    requires 0 < i < 6
    ensures FollowsAt(ExampleKnot3, ExampleKnot2, i)
  {
  }

  lemma ExampleFollows3From6(i: nat)
    requires 6 <= i < 12
    ensures FollowsAt(ExampleKnot3, ExampleKnot2, i)
  {
  }

  lemma ExampleFollows3From12(i: nat)
    requires 12 <= i < 18
    ensures FollowsAt(ExampleKnot3, ExampleKnot2, i)
  {
  }

  lemma ExampleFollows3From18(i: nat)
    requires 18 <= i < 24
    ensures FollowsAt(ExampleKnot3, ExampleKnot2, i)
  {
  }

  lemma ExampleFollow3()
    ensures FollowAll(Origin, ExampleKnot2) == ExampleKnot3
  {
    assert Near(Vec2D(0, 0), Vec2D(0, 0));
    assert ExampleKnot3[0] == Follow(Origin, ExampleKnot2[0]);
    forall i | 0 < i < |ExampleKnot3|
      ensures FollowsAt(ExampleKnot3, ExampleKnot2, i)
    {
      if i < 6 {
        ExampleFollows3From0(i);
      } else if i < 12 {
        ExampleFollows3From6(i);
      } else if i < 18 {
        ExampleFollows3From12(i);
      } else {
        ExampleFollows3From18(i);
      }
    }
    FollowAllIs(Origin, ExampleKnot2, ExampleKnot3);
  }

  lemma ExampleFollows4From0(i: nat)
    requires 0 < i < 6
    ensures FollowsAt(ExampleKnot4, ExampleKnot3, i)
  {
  }

  lemma ExampleFollows4From6(i: nat)
    requires 6 <= i < 12
    ensures FollowsAt(ExampleKnot4, ExampleKnot3, i)
  {
  }

  lemma ExampleFollows4From12(i: nat)
    requires 12 <= i < 18
    ensures FollowsAt(ExampleKnot4, ExampleKnot3, i)
  {
  }

  lemma ExampleFollows4From18(i: nat)
    requires 18 <= i < 24
    ensures FollowsAt(ExampleKnot4, ExampleKnot3, i)
  {
  }

  lemma ExampleFollow4()
    ensures FollowAll(Origin, ExampleKnot3) == ExampleKnot4
  {
    assert Near(Vec2D(0, 0), Vec2D(0, 0));
    assert ExampleKnot4[0] == Follow(Origin, ExampleKnot3[0]);
    forall i | 0 < i < |ExampleKnot4|
      ensures FollowsAt(ExampleKnot4, ExampleKnot3, i)
    {
      if i < 6 {
        ExampleFollows4From0(i);
      } else if i < 12 {
        ExampleFollows4From6(i);
      } else if i < 18 {
        ExampleFollows4From12(i);
      } else {
        ExampleFollows4From18(i);
      }
    }
    FollowAllIs(Origin, ExampleKnot3, ExampleKnot4);
  }

  lemma ExampleFollows5From0(i: nat)
    requires 0 < i < 6
    ensures FollowsAt(ExampleKnot5, ExampleKnot4, i)
  {
  }

  lemma ExampleFollows5From6(i: nat)
    requires 6 <= i < 12
    ensures FollowsAt(ExampleKnot5, ExampleKnot4, i)
  {
  }

  lemma ExampleFollows5From12(i: nat)
    requires 12 <= i < 18
    ensures FollowsAt(ExampleKnot5, ExampleKnot4, i)
  {
  }

  lemma ExampleFollows5From18(i: nat)
    requires 18 <= i < 24
    ensures FollowsAt(ExampleKnot5, ExampleKnot4, i)
  {
  }

  lemma ExampleFollow5()
    ensures FollowAll(Origin, ExampleKnot4) == ExampleKnot5
  {
    assert Near(Vec2D(0, 0), Vec2D(0, 0));
    assert ExampleKnot5[0] == Follow(Origin, ExampleKnot4[0]);
    forall i | 0 < i < |ExampleKnot5|
      ensures FollowsAt(ExampleKnot5, ExampleKnot4, i)
    {
      if i < 6 {
        ExampleFollows5From0(i);
      } else if i < 12 {
        ExampleFollows5From6(i);
      } else if i < 18 {
        ExampleFollows5From12(i);
      } else {
        ExampleFollows5From18(i);
      }
    }
    FollowAllIs(Origin, ExampleKnot4, ExampleKnot5);
  }

  lemma ExampleFollows6From0(i: nat)
    requires 0 < i < 6
    ensures FollowsAt(ExampleKnot6, ExampleKnot5, i)
  {
  }

  lemma ExampleFollows6From6(i: nat)
    requires 6 <= i < 12
    ensures FollowsAt(ExampleKnot6, ExampleKnot5, i)
  {
  }

  lemma ExampleFollows6From12(i: nat)
    requires 12 <= i < 18
    ensures FollowsAt(ExampleKnot6, ExampleKnot5, i)
  {
  }

  lemma ExampleFollows6From18(i: nat)
    requires 18 <= i < 24
    ensures FollowsAt(ExampleKnot6, ExampleKnot5, i)
  {
  }

  lemma ExampleFollow6()
    ensures FollowAll(Origin, ExampleKnot5) == ExampleKnot6
  {
    assert Near(Vec2D(0, 0), Vec2D(0, 0));
    assert ExampleKnot6[0] == Follow(Origin, ExampleKnot5[0]);
    forall i | 0 < i < |ExampleKnot6|
      ensures FollowsAt(ExampleKnot6, ExampleKnot5, i)
    {
      if i < 6 {
        ExampleFollows6From0(i);
      } else if i < 12 {
        ExampleFollows6From6(i);
      } else if i < 18 {
        ExampleFollows6From12(i);
      } else {
        ExampleFollows6From18(i);
      }
    }
    FollowAllIs(Origin, ExampleKnot5, ExampleKnot6);
  }

  lemma ExampleFollows7From0(i: nat)
    requires 0 < i < 6
    ensures FollowsAt(ExampleKnot7, ExampleKnot6, i)
  {
  }

  lemma ExampleFollows7From6(i: nat)
    requires 6 <= i < 12
    ensures FollowsAt(ExampleKnot7, ExampleKnot6, i)
  {
  }

  lemma ExampleFollows7From12(i: nat)
    requires 12 <= i < 18
    ensures FollowsAt(ExampleKnot7, ExampleKnot6, i)
  {
  }

  lemma ExampleFollows7From18(i: nat)
    requires 18 <= i < 24
    ensures FollowsAt(ExampleKnot7, ExampleKnot6, i)
  {
  }

  lemma ExampleFollow7()
    ensures FollowAll(Origin, ExampleKnot6) == ExampleKnot7
  {
    assert Near(Vec2D(0, 0), Vec2D(0, 0));
    assert ExampleKnot7[0] == Follow(Origin, ExampleKnot6[0]);
    forall i | 0 < i < |ExampleKnot7|
      ensures FollowsAt(ExampleKnot7, ExampleKnot6, i)
    {
      if i < 6 {
        ExampleFollows7From0(i);
      } else if i < 12 {
        ExampleFollows7From6(i);
      } else if i < 18 {
        ExampleFollows7From12(i);
      } else {
        ExampleFollows7From18(i);
      }
    }
    FollowAllIs(Origin, ExampleKnot6, ExampleKnot7);
  }

  lemma ExampleFollows8From0(i: nat)
    requires 0 < i < 6
    ensures FollowsAt(ExampleKnot8, ExampleKnot7, i)
  {
  }

  lemma ExampleFollows8From6(i: nat)
    requires 6 <= i < 12
    ensures FollowsAt(ExampleKnot8, ExampleKnot7, i)
  {
  }

  lemma ExampleFollows8From12(i: nat)
    requires 12 <= i < 18
    ensures FollowsAt(ExampleKnot8, ExampleKnot7, i)
  {
  }

  lemma ExampleFollows8From18(i: nat)
    requires 18 <= i < 24
    ensures FollowsAt(ExampleKnot8, ExampleKnot7, i)
  {
  }

  lemma ExampleFollow8()
    ensures FollowAll(Origin, ExampleKnot7) == ExampleKnot8
  {
    assert Near(Vec2D(0, 0), Vec2D(0, 0));
    assert ExampleKnot8[0] == Follow(Origin, ExampleKnot7[0]);
    forall i | 0 < i < |ExampleKnot8|
      ensures FollowsAt(ExampleKnot8, ExampleKnot7, i)
    {
      if i < 6 {
        ExampleFollows8From0(i);
      } else if i < 12 {
        ExampleFollows8From6(i);
      } else if i < 18 {
        ExampleFollows8From12(i);
      } else {
        ExampleFollows8From18(i);
      }
    }
    FollowAllIs(Origin, ExampleKnot7, ExampleKnot8);
  }

  lemma ExampleFollows9From0(i: nat)
    requires 0 < i < 6
    ensures FollowsAt(ExampleKnot9, ExampleKnot8, i)
  {
  }

  lemma ExampleFollows9From6(i: nat)
    requires 6 <= i < 12
    ensures FollowsAt(ExampleKnot9, ExampleKnot8, i)
  {
  }

  lemma ExampleFollows9From12(i: nat)
    requires 12 <= i < 18
    ensures FollowsAt(ExampleKnot9, ExampleKnot8, i)
  {
  }

  lemma ExampleFollows9From18(i: nat)
    requires 18 <= i < 24
    ensures FollowsAt(ExampleKnot9, ExampleKnot8, i)
  {
  }

  lemma ExampleFollow9()
    ensures FollowAll(Origin, ExampleKnot8) == ExampleKnot9
  {
    assert Near(Vec2D(0, 0), Vec2D(0, 0));
    assert ExampleKnot9[0] == Follow(Origin, ExampleKnot8[0]);
    forall i | 0 < i < |ExampleKnot9|
      ensures FollowsAt(ExampleKnot9, ExampleKnot8, i)
    {
      if i < 6 {
        ExampleFollows9From0(i);
      } else if i < 12 {
        ExampleFollows9From6(i);
      } else if i < 18 {
        ExampleFollows9From12(i);
      } else {
        ExampleFollows9From18(i);
      }
    }
    FollowAllIs(Origin, ExampleKnot8, ExampleKnot9);
  }

  lemma KnotNext(heads: seq<Vec2D>, k: nat, front: seq<Vec2D>, next: seq<Vec2D>)
    requires Knot(Origin, heads, k) == front && FollowAll(Origin, front) == next
    ensures Knot(Origin, heads, k + 1) == next
  {
  }

  /** The rope's knots, one follow at a time. */
  lemma ExampleKnotAt1(heads: seq<Vec2D>, k: nat)
    requires heads == ExampleHeads && k == 1
    ensures Knot(Origin, heads, k) == ExampleKnot1
  {
    ExampleFollow1();
    KnotNext(heads, k - 1, heads, ExampleKnot1);
  }

  lemma ExampleKnotAt2(heads: seq<Vec2D>, k: nat)
    requires heads == ExampleHeads && k == 2
    ensures Knot(Origin, heads, k) == ExampleKnot2
  {
    ExampleKnotAt1(heads, k - 1);
    ExampleFollow2();
    KnotNext(heads, k - 1, ExampleKnot1, ExampleKnot2);
  }

  lemma ExampleKnotAt3(heads: seq<Vec2D>, k: nat)
    requires heads == ExampleHeads && k == 3
    ensures Knot(Origin, heads, k) == ExampleKnot3
  {
    ExampleKnotAt2(heads, k - 1);
    ExampleFollow3();
    KnotNext(heads, k - 1, ExampleKnot2, ExampleKnot3);
  }

  lemma ExampleKnotAt4(heads: seq<Vec2D>, k: nat)
    requires heads == ExampleHeads && k == 4
    ensures Knot(Origin, heads, k) == ExampleKnot4
  {
    ExampleKnotAt3(heads, k - 1);
    ExampleFollow4();
    KnotNext(heads, k - 1, ExampleKnot3, ExampleKnot4);
  }

  lemma ExampleKnotAt5(heads: seq<Vec2D>, k: nat)
    requires heads == ExampleHeads && k == 5
    ensures Knot(Origin, heads, k) == ExampleKnot5
  {
    ExampleKnotAt4(heads, k - 1);
    ExampleFollow5();
    KnotNext(heads, k - 1, ExampleKnot4, ExampleKnot5);
  }

  lemma ExampleKnotAt6(heads: seq<Vec2D>, k: nat)
    requires heads == ExampleHeads && k == 6
    ensures Knot(Origin, heads, k) == ExampleKnot6
  {
    ExampleKnotAt5(heads, k - 1);
    ExampleFollow6();
    KnotNext(heads, k - 1, ExampleKnot5, ExampleKnot6);
  }

  lemma ExampleKnotAt7(heads: seq<Vec2D>, k: nat)
    requires heads == ExampleHeads && k == 7
    ensures Knot(Origin, heads, k) == ExampleKnot7
  {
    ExampleKnotAt6(heads, k - 1);
    ExampleFollow7();
    KnotNext(heads, k - 1, ExampleKnot6, ExampleKnot7);
  }

  lemma ExampleKnotAt8(heads: seq<Vec2D>, k: nat)
    requires heads == ExampleHeads && k == 8
    ensures Knot(Origin, heads, k) == ExampleKnot8
  {
    ExampleKnotAt7(heads, k - 1);
    ExampleFollow8();
    KnotNext(heads, k - 1, ExampleKnot7, ExampleKnot8);
  }

  lemma ExampleKnotAt9(heads: seq<Vec2D>, k: nat)
    requires heads == ExampleHeads && k == 9
    ensures Knot(Origin, heads, k) == ExampleKnot9
  {
    ExampleKnotAt8(heads, k - 1);
    ExampleFollow9();
    KnotNext(heads, k - 1, ExampleKnot8, ExampleKnot9);
  }

  lemma ExampleVisited1()
    ensures |Elems(ExampleKnot1)| == 13
  {
    var visited := [Vec2D(0, 0), Vec2D(1, 0), Vec2D(2, 0), Vec2D(3, 0), Vec2D(4, 1), Vec2D(4, 2), Vec2D(4, 3), Vec2D(3, 4), Vec2D(2, 4), Vec2D(3, 3), Vec2D(3, 2), Vec2D(2, 2), Vec2D(1, 2)];
    forall p | p in ExampleKnot1
      ensures p in visited
    {
    }
    forall p | p in visited
      ensures p in ExampleKnot1
    {
    }
    assert Elems(ExampleKnot1) == Elems(visited);
    ElemsOfDistinct(visited);
    assert |visited| == 13;
  }

  lemma ExampleVisited9()
    ensures |Elems(ExampleKnot9)| == 1
  {
    assert Elems(ExampleKnot9) == {Vec2D(0, 0)};
  }

  /** The knot behind the head visits 13 positions ... */
  lemma ExampleFirst(heads: seq<Vec2D>)
    requires heads == Positions(Origin, ExampleSteps)
    ensures SolveFirst(heads) == 13
  {
    ExampleHeadsArePositions();
    ExampleKnotAt1(heads, 1);
    ExampleVisited1();
  }

  /** ... and the tenth knot stays at the origin, so part 2 of this example
      is 1. */
  lemma ExampleSecond(heads: seq<Vec2D>)
    requires heads == Positions(Origin, ExampleSteps)
    ensures SolveSecond(heads) == 1
  {
    ExampleHeadsArePositions();
    ExampleKnotAt9(heads, 9);
    ExampleVisited9();
  }
}
