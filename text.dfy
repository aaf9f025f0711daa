/** The parts of Rust's string handling that the daily parsers rely on:
    `str::split` with a string pattern, `str::lines`, `split_whitespace` /
    `split_ascii_whitespace`, and `from_str` for unsigned and signed integers.
    Integer widths are not modelled: numbers are unbounded. */
module Text {
  import opened Common

  /** `s.split(sep)` for a non-empty pattern: the pieces between successive
      leftmost, non-overlapping occurrences of `sep`. There is always at least
      one piece (the empty string splits into one empty piece). */
  function SplitOn(s: string, sep: string): (r: seq<string>)
    requires |sep| > 0
    ensures |r| >= 1
    decreases |s|
  {
    if |s| < |sep| then
      [s]
    else if s[..|sep|] == sep then
      [""] + SplitOn(s[|sep|..], sep)
    else
      var rest := SplitOn(s[1..], sep);
      [[s[0]] + rest[0]] + rest[1..]
  }

  /** The pieces glued back together with `sep` between neighbours. */
  function Join(parts: seq<string>, sep: string): string
  {
    if parts == [] then ""
    else if |parts| == 1 then parts[0]
    else parts[0] + sep + Join(parts[1..], sep)
  }

  lemma JoinPrepend(c: string, parts: seq<string>, sep: string)
    requires |parts| >= 1
    ensures Join([c + parts[0]] + parts[1..], sep) == c + Join(parts, sep)
  {
    var q := [c + parts[0]] + parts[1..];
    assert q[1..] == parts[1..];
  }

  /** Splitting loses nothing: joining the pieces gives the text back. */
  lemma {:induction false} JoinSplit(s: string, sep: string)
    requires |sep| > 0
    ensures Join(SplitOn(s, sep), sep) == s
    decreases |s|
  {
    if |s| < |sep| {
    } else if s[..|sep|] == sep {
      JoinSplit(s[|sep|..], sep);
      JoinSplitAtSeparator(s, sep);
    } else {
      JoinSplit(s[1..], sep);
      JoinSplitPastFirst(s, sep);
    }
  }

  lemma JoinSplitAtSeparator(s: string, sep: string)
    requires 0 < |sep| <= |s| && s[..|sep|] == sep
    requires Join(SplitOn(s[|sep|..], sep), sep) == s[|sep|..]
    ensures Join(SplitOn(s, sep), sep) == s
  {
    var tail := s[|sep|..];
    var rest := SplitOn(tail, sep);
    var parts := [""] + rest;
    assert SplitOn(s, sep) == parts;
    assert |parts| >= 2 && parts[0] == "" && parts[1..] == rest;
    assert Join(parts, sep) == "" + sep + Join(rest, sep);
    assert "" + sep == sep;
    TakeDrop(s, |sep|);
  }

  lemma JoinSplitPastFirst(s: string, sep: string)
    requires 0 < |sep| <= |s| && s[..|sep|] != sep
    requires Join(SplitOn(s[1..], sep), sep) == s[1..]
    ensures Join(SplitOn(s, sep), sep) == s
  {
    var rest := SplitOn(s[1..], sep);
    assert SplitOn(s, sep) == [[s[0]] + rest[0]] + rest[1..];
    JoinPrepend([s[0]], rest, sep);
    assert s == [s[0]] + s[1..];
  }

  /** A piece free of the separator's first character is split off whole. */
  lemma {:induction false} SplitOnAfterPlainText(w: string, t: string, sep: string)
    requires |sep| > 0 && sep[0] !in w
    ensures SplitOn(w + t, sep) == [w + SplitOn(t, sep)[0]] + SplitOn(t, sep)[1..]
    decreases |w|
  {
    var r := SplitOn(t, sep);
    if w == [] {
      assert w + t == t;
      assert w + r[0] == r[0];
      assert [r[0]] + r[1..] == r;
    } else {
      var s := w + t;
      if |s| < |sep| {
        assert r == [t];
      } else {
        assert s[..|sep|][0] == w[0];
        assert s[1..] == w[1..] + t;
        SplitOnAfterPlainText(w[1..], t, sep);
        assert [w[0]] + (w[1..] + r[0]) == w + r[0];
      }
    }
  }

  /** Joining pieces free of the separator's first character and splitting
      again gives the pieces back. */
  lemma {:induction false} SplitJoin(parts: seq<string>, sep: string)
    requires |parts| >= 1 && |sep| > 0
    requires forall k :: 0 <= k < |parts| ==> sep[0] !in parts[k]
    ensures SplitOn(Join(parts, sep), sep) == parts
  {
    var p0 := parts[0];
    if |parts| == 1 {
      SplitOnAfterPlainText(p0, [], sep);
      assert p0 + [] == p0;
    } else {
      var j := Join(parts[1..], sep);
      var s := sep + j;
      SplitJoin(parts[1..], sep);
      assert SplitOn(s, sep) == [""] + parts[1..] by {
        assert |s| >= |sep| && s[..|sep|] == sep && s[|sep|..] == j;
      }
      assert Join(parts, sep) == p0 + s;
      SplitOnAfterPlainText(p0, s, sep);
      assert ([""] + parts[1..])[0] == "" && ([""] + parts[1..])[1..] == parts[1..];
      assert p0 + "" == p0;
      assert [p0] + parts[1..] == parts;
    }
  }

  /** A character found neither in the pieces nor in the separator is not in
      their join. */
  lemma {:induction false} JoinAvoids(parts: seq<string>, sep: string, c: char)
    requires c !in sep && forall k :: 0 <= k < |parts| ==> c !in parts[k]
    ensures c !in Join(parts, sep)
  {
    if |parts| > 1 {
      JoinAvoids(parts[1..], sep, c);
    }
  }

  /** `s.lines()`: the pieces between line feeds, where a final line feed does
      not start another (empty) line; the empty text has no lines. */
  function Lines(s: string): (r: seq<string>)
  {
    var pieces := SplitOn(s, "\n");
    if pieces[|pieces| - 1] == "" then pieces[..|pieces| - 1] else pieces
  }

  /** Lines free of line feeds, the last one not empty, joined by line feeds
      read back as those lines. */
  lemma LinesOfJoin(ls: seq<string>)
    requires |ls| >= 1 && ls[|ls| - 1] != ""
    requires forall k :: 0 <= k < |ls| ==> '\n' !in ls[k]
    ensures Lines(Join(ls, "\n")) == ls
  {
    var text := Join(ls, "\n");
    SplitJoin(ls, "\n");
    LinesOfPieces(text, ls);
  }

  lemma LinesOfPieces(text: string, pieces: seq<string>)
    requires |pieces| >= 1 && pieces[|pieces| - 1] != ""
    requires SplitOn(text, "\n") == pieces
    ensures Lines(text) == pieces
  {
  }

  /** The same lines, each ended by a line feed, read back too: the final
      line feed starts no line. */
  lemma LinesOfTerminated(ls: seq<string>)
    requires |ls| >= 1
    requires forall k :: 0 <= k < |ls| ==> '\n' !in ls[k]
    ensures Lines(Join(ls, "\n") + "\n") == ls
  {
    var all := ls + [""];
    JoinSnoc(ls, "", "\n");
    assert Join(ls, "\n") + "\n" + "" == Join(ls, "\n") + "\n";
    assert forall k :: 0 <= k < |all| ==> '\n' !in all[k];
    SplitJoin(all, "\n");
    assert all[..|all| - 1] == ls;
  }

  /** Joining one more part adds the separator and the part at the end. */
  lemma {:induction false} JoinSnoc(parts: seq<string>, last: string, sep: string)
    requires |parts| >= 1
    ensures Join(parts + [last], sep) == Join(parts, sep) + sep + last
  {
    var all := parts + [last];
    if |parts| == 1 {
      assert all[1..] == [last];
    } else {
      assert all[1..] == parts[1..] + [last];
      JoinSnoc(parts[1..], last, sep);
    }
  }

  /** Lines joined by line feeds are the lines written one after another,
      each but the last ended by a line feed. */
  lemma {:induction false} JoinIsConcat(ls: seq<string>, written: seq<string>)
    requires |ls| >= 1 && |written| == |ls|
    requires written[|ls| - 1] == ls[|ls| - 1]
    requires forall k :: 0 <= k < |ls| - 1 ==> written[k] == ls[k] + "\n"
    ensures Join(ls, "\n") == Concat(written)
  {
    if |ls| > 1 {
      JoinIsConcat(ls[1..], written[1..]);
      assert Concat(written) == written[0] + Concat(written[1..]);
    } else {
      assert Concat(written) == written[0] + Concat(written[1..]);
    }
  }

  /** Unicode White_Space, the set `char::is_whitespace` tests. */
  predicate IsWhitespace(c: char)
  {
    (9 <= c as int <= 13) || c as int == 32 || c as int == 0x85 || c as int == 0xA0
    || c as int == 0x1680 || (0x2000 <= c as int <= 0x200A) || c as int == 0x2028
    || c as int == 0x2029 || c as int == 0x202F || c as int == 0x205F || c as int == 0x3000
  }

  /** The ASCII whitespace `char::is_ascii_whitespace` tests (no vertical tab). */
  predicate IsAsciiWhitespace(c: char)
  {
    c == ' ' || c == '\t' || c == '\n' || c == '\r' || c as int == 12
  }

  /** Length of the longest prefix of `s` free of separator characters. */
  function WordLength(s: string, isSep: char -> bool): (n: nat)
    ensures n <= |s|
    ensures forall i :: 0 <= i < n ==> !isSep(s[i])
    ensures n < |s| ==> isSep(s[n])
  {
    if s == [] || isSep(s[0]) then 0 else 1 + WordLength(s[1..], isSep)
  }

  /** The maximal runs of non-separator characters, in order. */
  function Fields(s: string, isSep: char -> bool): (r: seq<string>)
    ensures forall k :: 0 <= k < |r| ==> r[k] != []
    ensures forall k, i :: 0 <= k < |r| && 0 <= i < |r[k]| ==> !isSep(r[k][i])
    decreases |s|
  {
    if s == [] then
      []
    else if isSep(s[0]) then
      Fields(s[1..], isSep)
    else
      var n := WordLength(s, isSep);
      [s[..n]] + Fields(s[n..], isSep)
  }

  /** `s.split_whitespace()` */
  function Words(s: string): seq<string>
  {
    Fields(s, IsWhitespace)
  }

  /** `s.split_ascii_whitespace()` */
  function AsciiWords(s: string): seq<string>
  {
    Fields(s, IsAsciiWhitespace)
  }

  ghost predicate IsWord(w: string, isSep: char -> bool)
  {
    w != [] && forall i :: 0 <= i < |w| ==> !isSep(w[i])
  }

  lemma {:induction false} WordLengthOfWord(w: string, t: string, isSep: char -> bool)
    requires IsWord(w, isSep)
    requires t == [] || isSep(t[0])
    ensures WordLength(w + t, isSep) == |w|
    decreases |w|
  {
    var s := w + t;
    assert s[0] == w[0] && !isSep(w[0]);
    assert WordLength(s, isSep) == 1 + WordLength(s[1..], isSep);
    if |w| > 1 {
      assert s[1..] == w[1..] + t;
      WordLengthOfWord(w[1..], t, isSep);
    } else {
      assert s[1..] == t;
    }
  }

  /** Splitting words that were written out separated by single spaces gives
      the words back. */
  lemma {:induction false} FieldsOfJoin(ws: seq<string>, isSep: char -> bool)
    requires isSep(' ')
    requires forall k :: 0 <= k < |ws| ==> IsWord(ws[k], isSep)
    ensures Fields(Join(ws, " "), isSep) == ws
  {
    if ws == [] {
    } else if |ws| == 1 {
      var w := ws[0];
      WordLengthOfWord(w, [], isSep);
      assert w + [] == w;
      assert w[..|w|] == w && w[|w|..] == [];
    } else {
      var w, tail := ws[0], Join(ws[1..], " ");
      var s := w + " " + tail;
      WordLengthOfWord(w, " " + tail, isSep);
      assert s == w + (" " + tail);
      assert s[..|w|] == w;
      assert s[|w|..] == " " + tail;
      assert (" " + tail)[1..] == tail;
      FieldsOfJoin(ws[1..], isSep);
    }
  }

  predicate IsDigit(c: char)
  {
    '0' <= c <= '9'
  }

  /** `c.to_digit(10)` */
  function DigitValue(c: char): (d: nat)
    requires IsDigit(c)
    ensures d < 10
  {
    c as int - '0' as int
  }

  function DigitChar(d: nat): (c: char)
    requires d < 10
    ensures IsDigit(c) && DigitValue(c) == d
  {
    (d + '0' as int) as char
  }

  predicate AllDigits(s: string)
  {
    forall i :: 0 <= i < |s| ==> IsDigit(s[i])
  }

  /** The number a string of decimal digits denotes, most significant first. */
  function DigitsValue(s: string): nat
    requires AllDigits(s)
  {
    if s == [] then 0 else DigitsValue(s[..|s| - 1]) * 10 + DigitValue(s[|s| - 1])
  }

  /** `s.parse::<usize>()`: an optional `+` followed by at least one decimal
      digit; anything else is an error. */
  function ParseNat(s: string): Option<nat>
  {
    var digits := if |s| > 0 && s[0] == '+' then s[1..] else s;
    if digits != [] && AllDigits(digits) then Some(DigitsValue(digits)) else None
  }

  /** `s.parse::<i64>()`: an optional `+` or `-` followed by at least one
      decimal digit. */
  function ParseInt(s: string): Option<int>
  {
    if |s| > 0 && s[0] == '-' then
      if |s| > 1 && AllDigits(s[1..]) then Some(-(DigitsValue(s[1..]) as int)) else None
    else
      match ParseNat(s)
      case Some(n) => Some(n)
      case None => None
  }

  /** Decimal rendering without sign or leading zeros. */
  function ShowNat(n: nat): (s: string)
    ensures s != [] && AllDigits(s) && s[0] != '+' && s[0] != '-'
  {
    if n < 10 then [DigitChar(n)] else ShowNat(n / 10) + [DigitChar(n % 10)]
  }

  function ShowInt(i: int): string
  {
    if i < 0 then "-" + ShowNat(-i) else ShowNat(i)
  }

  lemma {:induction false} DigitsValueOfShow(n: nat)
    ensures DigitsValue(ShowNat(n)) == n
  {
    if n >= 10 {
      var s := ShowNat(n);
      assert s[..|s| - 1] == ShowNat(n / 10);
      DigitsValueOfShow(n / 10);
    }
  }

  /** Parsing reads back what rendering writes. */
  lemma ParseShowNat(n: nat)
    ensures ParseNat(ShowNat(n)) == Some(n)
  {
    DigitsValueOfShow(n);
  }

  lemma ParseShowInt(i: int)
    ensures ParseInt(ShowInt(i)) == Some(i)
  {
    if i < 0 {
      var s := ShowInt(i);
      assert s[1..] == ShowNat(-i);
      DigitsValueOfShow(-i);
    } else {
      ParseShowNat(i);
    }
  }
}
