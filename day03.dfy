/** Day 3: rucksacks. Every line is a rucksack whose two halves are its two
    compartments. Part 1 adds up the priorities of the item kinds found in both
    halves of each line; part 2 adds up the priorities of the item kinds common
    to every line of each group of three lines. A kind is counted once however
    often it occurs, because the original collects the characters in hash
    sets; here the sets are sequences without repetitions. */
module Day03 {
  import opened Common

  /** `is_lowercase`, on ASCII letters. */
  predicate IsLowercase(ch: char)
  {
    'a' <= ch <= 'z'
  }

  /** `char_to_priority`: lowercase letters count from 1, everything else is
      measured from 'A' upwards starting at 27. */
  function Priority(ch: char): (p: int)
    ensures 'a' <= ch <= 'z' ==> 1 <= p <= 26
    ensures 'A' <= ch <= 'Z' ==> 27 <= p <= 52
  {
    if IsLowercase(ch) then ch as int - 'a' as int + 1 else ch as int - 'A' as int + 27
  }

  /** Letters get distinct priorities: on the 52 letters the map is injective. */
  lemma PriorityInjectiveOnLetters(a: char, b: char)
    requires 'a' <= a <= 'z' || 'A' <= a <= 'Z'
    requires 'a' <= b <= 'z' || 'A' <= b <= 'Z'
    requires Priority(a) == Priority(b)
    ensures a == b
  {
  }

  predicate NoRepeats(s: string)
  {
    forall i, j :: 0 <= i < j < |s| ==> s[i] != s[j]
  }

  /** The kinds occurring in `s`, each once, in order of first occurrence: the
      hash set `s.chars().collect()`. */
  function Kinds(s: string): (r: string)
    ensures NoRepeats(r)
    ensures forall c :: c in r <==> c in s
    decreases |s|
  {
    if s == [] then []
    else
      var rest := Kinds(s[..|s| - 1]);
      assert forall c :: c in s <==> c in s[..|s| - 1] || c == s[|s| - 1];
      if s[|s| - 1] in rest then rest else rest + [s[|s| - 1]]
  }

  /** The kinds of `a` that also occur in `b`: the hash-set `intersection`. */
  function Intersect(a: string, b: string): (r: string)
    requires NoRepeats(a)
    ensures NoRepeats(r)
    ensures forall c :: c in r <==> c in a && c in b
  {
    if a == [] then []
    else
      var rest := Intersect(a[1..], b);
      assert forall c :: c in a <==> c == a[0] || c in a[1..];
      if a[0] in b then [a[0]] + rest else rest
  }

  /** The total priority of a sequence of kinds. */
  function PrioritySum(s: string): int
  {
    if s == [] then 0 else Priority(s[0]) + PrioritySum(s[1..])
  }

  lemma {:induction false} PrioritySumAppend(a: string, b: string)
    ensures PrioritySum(a + b) == PrioritySum(a) + PrioritySum(b)
  {
    if a == [] {
      assert a + b == b;
    } else {
      assert (a + b)[1..] == a[1..] + b;
      PrioritySumAppend(a[1..], b);
    }
  }

  /** Taking the k-th kind out of a repetition-free sequence. */
  lemma RemoveKind(b: string, k: nat)
    requires NoRepeats(b) && k < |b|
    ensures var b' := b[..k] + b[k + 1..];
            NoRepeats(b')
            && PrioritySum(b) == Priority(b[k]) + PrioritySum(b')
            && forall c :: c in b' <==> c in b && c != b[k]
  {
    RemoveKindSum(b, k);
    RemoveKindNoRepeats(b, k);
    RemoveKindMembers(b, k);
  }

  lemma RemoveKindSum(b: string, k: nat)
    requires k < |b|
    ensures PrioritySum(b) == Priority(b[k]) + PrioritySum(b[..k] + b[k + 1..])
  {
    var front, x, back := b[..k], b[k], b[k + 1..];
    assert b == (front + [x]) + back;
    PrioritySumAppend(front + [x], back);
    PrioritySumAppend(front, [x]);
    assert [x][1..] == [];
    assert PrioritySum([x]) == Priority(x);
    PrioritySumAppend(front, back);
  }

  lemma RemoveKindNoRepeats(b: string, k: nat)
    requires NoRepeats(b) && k < |b|
    ensures NoRepeats(b[..k] + b[k + 1..])
  {
    var b' := b[..k] + b[k + 1..];
    forall i, j | 0 <= i < j < |b'|
      ensures b'[i] != b'[j]
    {
      var i' := if i < k then i else i + 1;
      var j' := if j < k then j else j + 1;
      assert b'[i] == b[i'] && b'[j] == b[j'];
    }
  }

  lemma RemoveKindMembers(b: string, k: nat)
    requires NoRepeats(b) && k < |b|
    ensures var b' := b[..k] + b[k + 1..];
            forall c :: c in b' <==> c in b && c != b[k]
  {
    var b' := b[..k] + b[k + 1..];
    forall c
      ensures c in b' <==> c in b && c != b[k]
    {
      if c in b' {
        var j :| 0 <= j < |b'| && b'[j] == c;
        var j' := if j < k then j else j + 1;
        assert b[j'] == c && j' != k;
      }
      if c in b && c != b[k] {
        var j :| 0 <= j < |b| && b[j] == c;
        if j < k {
          assert b'[j] == c;
        } else {
          assert b'[j - 1] == c;
        }
      }
    }
  }

  lemma DropFirstKind(a: string)
    requires NoRepeats(a) && a != []
    ensures NoRepeats(a[1..])
    ensures forall c :: c in a[1..] <==> c in a && c != a[0]
  {
    forall c | c in a && c != a[0]
      ensures c in a[1..]
    {
      var i :| 0 <= i < |a| && a[i] == c;
      assert a[1..][i - 1] == c;
    }
  }

  /** The total does not depend on the order the kinds come in: two repetition
      free sequences holding the same kinds have the same total. This is why
      the hash sets' iteration order does not matter. */
  lemma {:induction false} PrioritySumOfSameKinds(a: string, b: string)
    requires NoRepeats(a) && NoRepeats(b)
    requires forall c :: c in a <==> c in b
    ensures PrioritySum(a) == PrioritySum(b)
    decreases |a|
  {
    if a == [] {
      assert forall i :: 0 <= i < |b| ==> b[i] in b;
    } else {
      assert a[0] in b;
      var k :| 0 <= k < |b| && b[k] == a[0];
      RemoveKind(b, k);
      DropFirstKind(a);
      PrioritySumOfSameKinds(a[1..], b[..k] + b[k + 1..]);
    }
  }

  /** `get_common_item_priorities`: the line is cut at half its length and the
      kinds present in both halves are summed. The length is counted in
      characters, which is the original's byte length on ASCII lines. */
  function CommonItemPriorities(line: string): int
  {
    var n := |line|;
    PrioritySum(Intersect(Kinds(line[..n / 2]), Kinds(line[n / 2..])))
  }

  /** What part 1 sums for a line: exactly the kinds present in both halves,
      each once. */
  lemma CommonItemsOfLine(line: string)
    ensures var n := |line|;
            var common := Intersect(Kinds(line[..n / 2]), Kinds(line[n / 2..]));
            NoRepeats(common)
            && (forall c :: c in common <==> c in line[..n / 2] && c in line[n / 2..])
            && CommonItemPriorities(line) == PrioritySum(common)
  {
  }

  /** Intersecting the halves the other way round gives the same total. */
  lemma CommonItemsCommute(a: string, b: string)
    ensures PrioritySum(Intersect(Kinds(a), Kinds(b))) == PrioritySum(Intersect(Kinds(b), Kinds(a)))
  {
    PrioritySumOfSameKinds(Intersect(Kinds(a), Kinds(b)), Intersect(Kinds(b), Kinds(a)));
  }

  /** `solve_first` */
  function SolveFirst(lines: seq<string>): int
  {
    if lines == [] then 0 else CommonItemPriorities(lines[0]) + SolveFirst(lines[1..])
  }

  /** `c` occurs in every line of the group. */
  predicate InAll(c: char, group: seq<string>)
  {
    forall k :: 0 <= k < |group| ==> c in group[k]
  }

  /** The `reduce` of a group's sets by intersection (a group is never empty). */
  function GroupCommon(group: seq<string>): (r: string)
    requires |group| >= 1
    ensures NoRepeats(r)
    ensures forall c :: c in r <==> InAll(c, group)
  {
    if |group| == 1 then Kinds(group[0])
    else
      var init := group[..|group| - 1];
      var acc := GroupCommon(init);
      var r := Intersect(acc, Kinds(group[|group| - 1]));
      assert forall c :: InAll(c, group) <==> InAll(c, init) && c in group[|group| - 1];
      r
  }

  /** `solve_second` */
  function SolveSecond(lines: seq<string>): int
  {
    GroupTotals(Chunks(lines, 3))
  }

  function GroupTotals(groups: seq<seq<string>>): int
    requires forall k :: 0 <= k < |groups| ==> |groups[k]| >= 1
  {
    if groups == [] then 0 else PrioritySum(GroupCommon(groups[0])) + GroupTotals(groups[1..])
  }

  /** A group's total does not depend on the order of its lines. */
  lemma GroupCommonOrder(group: seq<string>, other: seq<string>)
    requires |group| >= 1
    requires multiset(group) == multiset(other)
    ensures |other| >= 1
    ensures PrioritySum(GroupCommon(group)) == PrioritySum(GroupCommon(other))
  {
    assert |other| == |multiset(other)| == |multiset(group)| == |group|;
    forall c
      ensures InAll(c, group) <==> InAll(c, other)
    {
      if InAll(c, group) {
        forall k | 0 <= k < |other|
          ensures c in other[k]
        {
          assert other[k] in multiset(group);
        }
      }
      if InAll(c, other) {
        forall k | 0 <= k < |group|
          ensures c in group[k]
        {
          assert group[k] in multiset(other);
        }
      }
    }
    PrioritySumOfSameKinds(GroupCommon(group), GroupCommon(other));
  }

  /** No lines, nothing to add: both parts answer 0. */
  lemma EmptyInput()
    ensures SolveFirst([]) == 0 && SolveSecond([]) == 0
  {
  }
}
