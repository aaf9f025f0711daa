/** Small building blocks shared by the daily solvers: an optional value for the
    places where the original panics, sums over sequences, and an ascending sort
    with the facts needed to talk about "the k largest elements". */
module Common {

  /** The result of a computation that the original aborts with a panic
      (`unwrap` on nothing, an index out of range, an unsigned underflow). */
  datatype Option<T> = None | Some(value: T)

  /** `map(f).collect::<Option<Vec<_>>>()`, or a map whose every `unwrap`
      must succeed: `None` as soon as one element fails. */
  function MapAll<A, B>(xs: seq<A>, f: A -> Option<B>): (r: Option<seq<B>>)
    ensures r.Some? <==> forall k :: 0 <= k < |xs| ==> f(xs[k]).Some?
    ensures r.Some? ==> |r.value| == |xs| && forall k :: 0 <= k < |xs| ==> f(xs[k]) == Some(r.value[k])
  {
    if xs == [] then Some([])
    else
      assert forall k :: 1 <= k < |xs| ==> xs[1..][k - 1] == xs[k];
      match f(xs[0])
      case None => None
      case Some(y) =>
        match MapAll(xs[1..], f)
        case None => None
        case Some(rest) => Some([y] + rest)
  }

  /** A prefix and the matching suffix make the whole sequence. */
  lemma TakeDrop<T>(s: seq<T>, k: nat)
    requires k <= |s|
    ensures s[..k] + s[k..] == s
  {
  }

  /** A prefix one longer is the prefix followed by the next element. */
  lemma TakeSnoc<T>(s: seq<T>, k: nat)
    requires k < |s|
    ensures s[..k + 1] == s[..k] + [s[k]]
  {
  }

  /** Putting the head back in front of the tail and a suffix. */
  lemma ConsTail<T>(s: seq<T>, suffix: seq<T>)
    requires |s| >= 1
    ensures [s[0]] + (s[1..] + suffix) == s + suffix
  {
  }

  /** A prefix reaching past `a` keeps all of `a`. */
  lemma PrefixOfAppend<T>(a: seq<T>, b: seq<T>, m: nat)
    requires m <= |b|
    ensures (a + b)[..|a| + m] == a + b[..m]
  {
  }

  function Sum(s: seq<int>): int
  {
    if s == [] then 0 else s[0] + Sum(s[1..])
  }

  lemma {:induction false} SumAppend(a: seq<int>, b: seq<int>)
    ensures Sum(a + b) == Sum(a) + Sum(b)
  {
    if a == [] {
      assert a + b == b;
    } else {
      assert (a + b)[1..] == a[1..] + b;
      SumAppend(a[1..], b);
    }
  }

  lemma {:induction false} SumNonNegative(s: seq<int>)
    requires forall i :: 0 <= i < |s| ==> s[i] >= 0
    ensures Sum(s) >= 0
  {
    if s != [] {
      SumNonNegative(s[1..]);
    }
  }

  /** A sum of non-negative numbers is at least each of its terms. */
  lemma {:induction false} SumAtLeastTerm(s: seq<int>, k: nat)
    requires forall i :: 0 <= i < |s| ==> s[i] >= 0
    requires k < |s|
    ensures Sum(s) >= s[k]
  {
    SumNonNegative(s[1..]);
    if k > 0 {
      SumAtLeastTerm(s[1..], k - 1);
    }
  }

  /** The largest element: `iter().max().unwrap()`, defined when there is one. */
  function Max(s: seq<int>): (m: int)
    requires |s| > 0
    ensures m in s
    ensures forall i :: 0 <= i < |s| ==> s[i] <= m
  {
    if |s| == 1 then s[0]
    else
      var rest := Max(s[1..]);
      assert forall i :: 1 <= i < |s| ==> s[i] == s[1..][i - 1];
      if s[0] >= rest then s[0] else rest
  }

  ghost predicate SortedAsc(s: seq<int>)
  {
    forall i, j :: 0 <= i < j < |s| ==> s[i] <= s[j]
  }

  /** Inserts `x` before the first element not below it; in an ascending
      sequence that keeps it ascending (`InsertSortedAscending`). */
  function InsertSorted(x: int, s: seq<int>): (r: seq<int>)
    ensures |r| == |s| + 1
  {
    if s == [] || x <= s[0] then
      [x] + s
    else
      [s[0]] + InsertSorted(x, s[1..])
  }

  /** Inserting adds `x` and keeps everything else. */
  lemma {:induction false} InsertSortedPermutes(x: int, s: seq<int>)
    ensures multiset(InsertSorted(x, s)) == multiset(s) + multiset{x}
  {
    if s != [] && x > s[0] {
      InsertSortedPermutes(x, s[1..]);
      assert s == [s[0]] + s[1..];
    }
  }

  lemma SortedCons(h: int, s: seq<int>)
    requires SortedAsc(s)
    requires forall k :: 0 <= k < |s| ==> h <= s[k]
    ensures SortedAsc([h] + s)
  {
  }

  lemma {:induction false} InsertSortedAscending(x: int, s: seq<int>)
    requires SortedAsc(s)
    ensures SortedAsc(InsertSorted(x, s))
  {
    if s == [] || x <= s[0] {
      SortedCons(x, s);
    } else {
      InsertSortedAscending(x, s[1..]);
      InsertAbove(x, s[1..], s[0]);
      SortedCons(s[0], InsertSorted(x, s[1..]));
      assert s == [s[0]] + s[1..];
    }
  }

  /** Inserting a value no smaller than `low` into values no smaller than
      `low` gives values no smaller than `low`. */
  lemma InsertAbove(x: int, s: seq<int>, low: int)
    requires low <= x && forall k :: 0 <= k < |s| ==> low <= s[k]
    ensures forall k :: 0 <= k < |InsertSorted(x, s)| ==> low <= InsertSorted(x, s)[k]
  {
    var r := InsertSorted(x, s);
    InsertSortedPermutes(x, s);
    forall k | 0 <= k < |r|
      ensures low <= r[k]
    {
      assert r[k] in multiset(r);
      assert r[k] == x || r[k] in multiset(s);
    }
  }

  /** Insertion sort: a permutation of `s` by `SortPermutes`, ascending by
      `SortAscending`. */
  function Sort(s: seq<int>): (r: seq<int>)
    ensures |r| == |s|
  {
    if s == [] then [] else InsertSorted(s[0], Sort(s[1..]))
  }

  lemma {:induction false} SortPermutes(s: seq<int>)
    ensures multiset(Sort(s)) == multiset(s)
  {
    if s != [] {
      SortPermutes(s[1..]);
      InsertSortedPermutes(s[0], Sort(s[1..]));
      assert s == [s[0]] + s[1..];
    }
  }

  lemma {:induction false} SortAscending(s: seq<int>)
    ensures SortedAsc(Sort(s))
  {
    if s != [] {
      SortAscending(s[1..]);
      InsertSortedAscending(s[0], Sort(s[1..]));
    }
  }

  lemma SubMultisetSize<T>(a: multiset<T>, b: multiset<T>)
    requires a <= b
    ensures |a| <= |b|
  {
    assert b == a + (b - a);
  }

  /** In an ascending sequence, fewer than `k` elements (counted with their
      multiplicity) are strictly larger than the k-th largest one. */
  lemma AboveKthLargest(s: seq<int>, k: nat, t: multiset<int>)
    requires SortedAsc(s)
    requires 1 <= k <= |s|
    requires t <= multiset(s)
    requires forall x :: x in t ==> x > s[|s| - k]
    ensures |t| < k
  {
    var cut := |s| - k + 1;
    var low, high := s[..cut], s[cut..];
    assert s == low + high;
    PrefixAtMost(s, cut);
    OutsideOfPart(t, multiset(low), multiset(high));
    SubMultisetSize(t, multiset(high));
  }

  /** Every element of an ascending sequence's prefix is at most its last one. */
  lemma PrefixAtMost(s: seq<int>, cut: nat)
    requires SortedAsc(s) && 0 < cut <= |s|
    ensures forall x :: x in multiset(s[..cut]) ==> x <= s[cut - 1]
  {
    var low := s[..cut];
    forall x | x in multiset(low)
      ensures x <= s[cut - 1]
    {
      var j :| 0 <= j < |low| && low[j] == x;
      assert low[j] == s[j];
    }
  }

  /** A sub-multiset of `a + b` sharing no element with `a` lies within `b`. */
  lemma OutsideOfPart(t: multiset<int>, a: multiset<int>, b: multiset<int>)
    requires t <= a + b
    requires forall x :: x in t ==> x !in a
    ensures t <= b
  {
    forall x
      ensures t[x] <= b[x]
    {
      if x in t {
        assert a[x] == 0;
      }
    }
  }

  /** Among any `k` elements of an ascending sequence (with multiplicity), at
      least one is at most the k-th largest element. */
  lemma KthLargest(s: seq<int>, k: nat, t: multiset<int>)
    requires SortedAsc(s)
    requires 1 <= k <= |s|
    requires t <= multiset(s)
    requires |t| >= k
    ensures exists x :: x in t && x <= s[|s| - k]
  {
    if forall x :: x in t ==> x > s[|s| - k] {
      AboveKthLargest(s, k, t);
    }
  }

  /** Every element of an ascending sequence is at most its last one. */
  lemma AtMostLast(s: seq<int>, x: int)
    requires SortedAsc(s) && |s| > 0
    requires x in multiset(s)
    ensures x <= s[|s| - 1]
  {
    KthLargest(s, 1, multiset{x});
  }

  /** `s.chunks(n)`: consecutive pieces of `n` elements, the last one possibly
      shorter. */
  function Chunks<T>(s: seq<T>, n: nat): (r: seq<seq<T>>)
    requires n > 0
    ensures forall k :: 0 <= k < |r| ==> 1 <= |r[k]| <= n
    ensures forall k :: 0 <= k < |r| - 1 ==> |r[k]| == n
    ensures |r| * n >= |s| && (|r| > 0 ==> (|r| - 1) * n < |s|)
    decreases |s|
  {
    if |s| <= n then
      if s == [] then [] else [s]
    else
      [s[..n]] + Chunks(s[n..], n)
  }

  /** Element `j` of chunk `k` is element `k * n + j` of the input. */
  lemma {:induction false} ChunkAt<T>(s: seq<T>, n: nat, k: nat, j: nat)
    requires n > 0 && k < |Chunks(s, n)| && j < |Chunks(s, n)[k]|
    ensures k * n + j < |s| && Chunks(s, n)[k][j] == s[k * n + j]
    decreases k
  {
    if k > 0 {
      var c := Chunks(s, n);
      assert |s| > n;
      assert c[k] == Chunks(s[n..], n)[k - 1];
      ChunkAt(s[n..], n, k - 1, j);
      MulPred(k, n);
    }
  }

  lemma MulPred(k: int, n: int)
    ensures k * n == (k - 1) * n + n
  {
  }

  function Concat<T>(groups: seq<seq<T>>): seq<T>
  {
    if groups == [] then [] else groups[0] + Concat(groups[1..])
  }

  /** The groups from `k` on are group `k` followed by those after it. */
  lemma ConcatCons<T>(groups: seq<seq<T>>, k: nat)
    requires k < |groups|
    ensures Concat(groups[k..]) == groups[k] + Concat(groups[k + 1..])
  {
    assert groups[k..][1..] == groups[k + 1..];
  }

  /** The chunks hold the elements in order, with nothing lost. */
  lemma {:induction false} ChunksConcat<T>(s: seq<T>, n: nat)
    requires n > 0
    ensures Concat(Chunks(s, n)) == s
    decreases |s|
  {
    if |s| <= n {
      if s != [] {
        assert Concat([s]) == s + Concat<T>([]);
      }
    } else {
      var c := Chunks(s, n);
      assert c[0] == s[..n] && c[1..] == Chunks(s[n..], n);
      ChunksConcat(s[n..], n);
      assert s == s[..n] + s[n..];
    }
  }
}
