/** Day 6: the start-of-packet marker. The answer is the number of bytes read
    up to and including the first window of `w` consecutive bytes that are all
    different; the original counts the leading windows that contain a repeat
    and adds `w`. */
module Day06 {

  newtype byte = x: int | 0 <= x < 256

  /** The distinct bytes of a window (the `HashSet<u8>` it is collected into). */
  function Elems(t: seq<byte>): set<byte>
  {
    set x | x in t
  }

  predicate AllDistinct(t: seq<byte>)
  {
    forall i, j :: 0 <= i < j < |t| ==> t[i] != t[j]
  }

  /** A window has as many distinct bytes as its length exactly when no byte
      repeats; otherwise it has fewer. */
  lemma {:induction false} ElemsSize(t: seq<byte>)
    ensures |Elems(t)| <= |t|
    ensures |Elems(t)| == |t| <==> AllDistinct(t)
  {
    if t != [] {
      var init, last := t[..|t| - 1], t[|t| - 1];
      ElemsSize(init);
      assert Elems(t) == Elems(init) + {last};
      if last in Elems(init) {
        assert Elems(t) == Elems(init);
        var k :| 0 <= k < |init| && init[k] == last;
        assert t[k] == t[|t| - 1];
      } else {
        assert |Elems(t)| == |Elems(init)| + 1;
        if AllDistinct(init) {
          forall i, j | 0 <= i < j < |t|
            ensures t[i] != t[j]
          {
            if j == |t| - 1 {
              assert t[i] == init[i];
            } else {
              assert t[i] == init[i] && t[j] == init[j];
            }
          }
        }
      }
      if AllDistinct(t) {
        assert AllDistinct(init) by {
          forall i, j | 0 <= i < j < |init|
            ensures init[i] != init[j]
          {
            assert init[i] == t[i] && init[j] == t[j];
          }
        }
      }
    }
  }

  /** The window of length `w` starting at `i` exists and has a repeated byte
      (`collect::<HashSet<u8>>().len() < window_size`). */
  predicate HasRepeat(s: seq<byte>, i: nat, w: nat)
  {
    i + w <= |s| && |Elems(s[i..i + w])| < w
  }

  /** `windows(w).take_while(has repeat).count()`, starting at window `i`. */
  function LeadingRepeats(s: seq<byte>, w: nat, i: nat): (n: nat)
    requires w > 0
    decreases |s| - i
  {
    if HasRepeat(s, i, w) then 1 + LeadingRepeats(s, w, i + 1) else 0
  }

  /** `Problem::solve`; `windows` panics on a window size of 0. */
  function Solve(s: seq<byte>, w: nat): (r: nat)
    requires w > 0
    ensures r >= w
  {
    LeadingRepeats(s, w, 0) + w
  }

  /** The window of length `w` starting at `i` exists and is a marker: no
      byte repeats. */
  predicate IsMarker(s: seq<byte>, i: nat, w: nat)
  {
    i + w <= |s| && AllDistinct(s[i..i + w])
  }

  lemma RepeatIffNotMarker(s: seq<byte>, i: nat, w: nat)
    requires i + w <= |s|
    ensures HasRepeat(s, i, w) <==> !IsMarker(s, i, w)
  {
    ElemsSize(s[i..i + w]);
  }

  /** Where the count stops: every window it passes has a repeat, and it stops
      at the first window without one or at the end. */
  lemma {:induction false} LeadingRepeatsStop(s: seq<byte>, w: nat, i: nat)
    requires w > 0
    ensures forall j :: i <= j < i + LeadingRepeats(s, w, i) ==> HasRepeat(s, j, w)
    ensures !HasRepeat(s, i + LeadingRepeats(s, w, i), w)
    decreases |s| - i
  {
    if HasRepeat(s, i, w) {
      LeadingRepeatsStop(s, w, i + 1);
      assert i + LeadingRepeats(s, w, i) == i + 1 + LeadingRepeats(s, w, i + 1);
    }
  }

  /** When some window is a marker, the answer is the end of the first one,
      provided every earlier window has a repeat. */
  lemma FirstMarker(s: seq<byte>, w: nat, start: nat)
    requires w > 0 && start + w <= |s|
    requires IsMarker(s, start, w)
    requires forall j: nat :: j < start ==> !IsMarker(s, j, w)
    ensures Solve(s, w) == start + w
  {
    var n := LeadingRepeats(s, w, 0);
    LeadingRepeatsStop(s, w, 0);
    RepeatIffNotMarker(s, start, w);
    if n < start {
      assert n + w <= |s|;
      assert !IsMarker(s, n, w);
      RepeatIffNotMarker(s, n, w);
    }
  }

  /** A marker window bounds the answer by its end. */
  lemma MarkerBound(s: seq<byte>, w: nat, start: nat)
    requires w > 0 && start + w <= |s|
    requires IsMarker(s, start, w)
    ensures Solve(s, w) <= start + w
  {
    var n := LeadingRepeats(s, w, 0);
    LeadingRepeatsStop(s, w, 0);
    RepeatIffNotMarker(s, start, w);
  }

  /** Without any marker window the count runs over every window: the answer
      is `|s| + 1` when there is at least one window, `w` otherwise. */
  lemma NoMarker(s: seq<byte>, w: nat)
    requires w > 0
    requires forall j: nat :: !IsMarker(s, j, w)
    ensures |s| >= w ==> Solve(s, w) == |s| + 1
    ensures |s| < w ==> Solve(s, w) == w
  {
    var n := LeadingRepeats(s, w, 0);
    LeadingRepeatsStop(s, w, 0);
    if n + w <= |s| {
      assert !IsMarker(s, n, w);
      RepeatIffNotMarker(s, n, w);
    }
    if n > 0 {
      assert HasRepeat(s, n - 1, w);
    }
  }

  /** `solve_first` and `solve_second`. */
  function SolveFirst(s: seq<byte>): (r: nat)
    ensures r >= 4
  {
    Solve(s, 4)
  }

  function SolveSecond(s: seq<byte>): (r: nat)
    ensures r >= 14
  {
    Solve(s, 14)
  }

  /** The example stream `bvwbjplbgvbhsrlpgdmjqwftvncz` reaches a packet marker
      after 5 bytes. */
  lemma ExampleFirst(s: seq<byte>)
    requires s == [98, 118, 119, 98, 106, 112, 108, 98, 103, 118, 98, 104, 115, 114, 108,
                   112, 103, 100, 109, 106, 113, 119, 102, 116, 118, 110, 99, 122]
    ensures SolveFirst(s) == 5
  {
    RepeatAt(s, 4, 0, 0, 3);
    FourDifferent(s, 1);
    FirstMarker(s, 4, 1);
  }

  /** Four pairwise different bytes starting at `i` make a marker of 4. */
  lemma FourDifferent(s: seq<byte>, i: nat)
    requires i + 4 <= |s|
    requires s[i] != s[i + 1] && s[i] != s[i + 2] && s[i] != s[i + 3]
    requires s[i + 1] != s[i + 2] && s[i + 1] != s[i + 3] && s[i + 2] != s[i + 3]
    ensures IsMarker(s, i, 4)
  {
    var t := s[i..i + 4];
    assert t[0] == s[i] && t[1] == s[i + 1] && t[2] == s[i + 2] && t[3] == s[i + 3];
  }

  /** Two equal bytes inside the window starting at `i` keep it from being a
      marker. */
  lemma RepeatAt(s: seq<byte>, w: nat, i: nat, a: nat, b: nat)
    requires i + w <= |s| && a < b < w && s[i + a] == s[i + b]
    ensures !IsMarker(s, i, w)
  {
    assert s[i..i + w][a] == s[i..i + w][b];
  }

  /** In the example stream, each of the windows of 14 starting at 0 to 8
      repeats a byte. */
  lemma ExampleEarlyWindows(s: seq<byte>)
    requires s == [98, 118, 119, 98, 106, 112, 108, 98, 103, 118, 98, 104, 115, 114, 108,
                   112, 103, 100, 109, 106, 113, 119, 102, 116, 118, 110, 99, 122]
    ensures forall j: nat :: j < 9 ==> !IsMarker(s, j, 14)
  {
    ExampleWindowsFrom0(s);
    ExampleWindowsFrom3(s);
    ExampleWindowsFrom6(s);
  }

  lemma ExampleWindowsFrom0(s: seq<byte>)
    requires s == [98, 118, 119, 98, 106, 112, 108, 98, 103, 118, 98, 104, 115, 114, 108,
                   112, 103, 100, 109, 106, 113, 119, 102, 116, 118, 110, 99, 122]
    ensures forall j: nat :: j < 3 ==> !IsMarker(s, j, 14)
  {
    forall j: nat | j < 3
      ensures !IsMarker(s, j, 14)
    {
      if j == 0 { RepeatAt(s, 14, 0, 0, 3); }
      else if j == 1 { RepeatAt(s, 14, 1, 0, 8); }
      else { RepeatAt(s, 14, 2, 1, 5); }
    }
  }

  lemma ExampleWindowsFrom3(s: seq<byte>)
    requires s == [98, 118, 119, 98, 106, 112, 108, 98, 103, 118, 98, 104, 115, 114, 108,
                   112, 103, 100, 109, 106, 113, 119, 102, 116, 118, 110, 99, 122]
    ensures forall j: nat :: 3 <= j < 6 ==> !IsMarker(s, j, 14)
  {
    forall j: nat | 3 <= j < 6
      ensures !IsMarker(s, j, 14)
    {
      if j == 3 { RepeatAt(s, 14, 3, 0, 4); }
      else if j == 4 { RepeatAt(s, 14, 4, 1, 11); }
      else { RepeatAt(s, 14, 5, 0, 10); }
    }
  }

  lemma ExampleWindowsFrom6(s: seq<byte>)
    requires s == [98, 118, 119, 98, 106, 112, 108, 98, 103, 118, 98, 104, 115, 114, 108,
                   112, 103, 100, 109, 106, 113, 119, 102, 116, 118, 110, 99, 122]
    ensures forall j: nat :: 6 <= j < 9 ==> !IsMarker(s, j, 14)
  {
    forall j: nat | 6 <= j < 9
      ensures !IsMarker(s, j, 14)
    {
      if j == 6 { RepeatAt(s, 14, 6, 0, 8); }
      else if j == 7 { RepeatAt(s, 14, 7, 0, 3); }
      else { RepeatAt(s, 14, 8, 0, 8); }
    }
  }

  /** The window of 14 starting at 9 holds 14 different bytes. */
  lemma ExampleWindowNine(s: seq<byte>)
    requires s == [98, 118, 119, 98, 106, 112, 108, 98, 103, 118, 98, 104, 115, 114, 108,
                   112, 103, 100, 109, 106, 113, 119, 102, 116, 118, 110, 99, 122]
    ensures IsMarker(s, 9, 14)
  {
    var t := s[9..23];
    assert t == [118, 98, 104, 115, 114, 108, 112, 103, 100, 109, 106, 113, 119, 102];
  }

  /** The same stream reaches a message marker after 23 bytes. */
  lemma ExampleSecond(s: seq<byte>)
    requires s == [98, 118, 119, 98, 106, 112, 108, 98, 103, 118, 98, 104, 115, 114, 108,
                   112, 103, 100, 109, 106, 113, 119, 102, 116, 118, 110, 99, 122]
    ensures SolveSecond(s) == 23
  {
    ExampleEarlyWindows(s);
    ExampleWindowNine(s);
    FirstMarker(s, 14, 9);
  }
}
