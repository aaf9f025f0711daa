/** Day 10: a CPU with one register `x` (starting at 1) running `noop` (one
    cycle) and `addx n` (two cycles, then `x` grows by `n`). Part 1 adds up
    the signal strengths `cycle * x` at cycles 20, 60, ..., 220; part 2 draws
    a 40-column CRT where the pixel of a cycle is lit when the three-pixel
    sprite centred on `x` covers the pixel's column.

    Both parts are loops over the program; they are proved against one
    reference definition, `During`, of the register's value during a cycle. */
module Day10 {
  import opened Common
  import opened Text

  /** `Op` */
  datatype Op = Noop | Add(value: int)

  /** `Op::operate`: the register after the instruction completes. */
  function Operate(op: Op, x: int): int
  {
    match op
    case Noop => x
    case Add(i) => x + i
  }

  /** `Op::cycles` */
  function Cycles(op: Op): (n: nat)
    ensures n == 1 || n == 2
    ensures n == 2 <==> op.Add?
  {
    match op
    case Noop => 1
    case Add(_) => 2
  }

  /** `Op::from_str`: the first word names the instruction; `addx` reads its
      operand from the second word. An empty line, an unknown mnemonic and a
      missing or malformed operand all panic (`None`). */
  function ParseOp(line: string): (r: Option<Op>)
    ensures r == Some(Noop) <==> |Words(line)| > 0 && Words(line)[0] == "noop"
    ensures (r.Some? && r.value.Add?) <==>
      |Words(line)| > 1 && Words(line)[0] == "addx" && ParseInt(Words(line)[1]).Some?
    ensures r.Some? && r.value.Add? ==> ParseInt(Words(line)[1]) == Some(r.value.value)
  {
    var words := Words(line);
    if |words| == 0 then None
    else if words[0] == "noop" then Some(Noop)
    else if words[0] == "addx" then
      if |words| < 2 then None
      else
        match ParseInt(words[1])
        case None => None
        case Some(n) => Some(Add(n))
    else None
  }

  /** The text of an instruction. */
  function ShowOp(op: Op): string
  {
    match op
    case Noop => "noop"
    case Add(i) => "addx " + ShowInt(i)
  }

  /** Parsing reads back every instruction as it is written. */
  lemma ParseShowOp(op: Op)
    ensures ParseOp(ShowOp(op)) == Some(op)
  {
    match op
    case Noop =>
      FieldsOfJoin(["noop"], IsWhitespace);
    case Add(i) =>
      WordsOfAdd(i);
      ParseShowInt(i);
  }

  lemma WordsOfAdd(i: int)
    ensures Words("addx " + ShowInt(i)) == ["addx", ShowInt(i)]
  {
    var words := ["addx", ShowInt(i)];
    IntIsWord(i);
    assert forall k :: 0 <= k < |words| ==> IsWord(words[k], IsWhitespace);
    FieldsOfJoin(words, IsWhitespace);
    assert Join(words, " ") == "addx " + ShowInt(i);
  }

  lemma IntIsWord(i: int)
    ensures IsWord(ShowInt(i), IsWhitespace)
  {
    var s := ShowInt(i);
    assert forall k :: 0 <= k < |s| ==> s[k] == '-' || IsDigit(s[k]) by {
      if i < 0 {
        forall k | 0 <= k < |s|
          ensures s[k] == '-' || IsDigit(s[k])
        {
          if k > 0 {
            assert s[k] == ShowNat(-i)[k - 1];
          }
        }
      }
    }
  }

  /** `parse_input`: one instruction per line; any bad line panics. */
  function ParseInput(lines: seq<string>): (r: Option<seq<Op>>)
    ensures r.Some? <==> forall k :: 0 <= k < |lines| ==> ParseOp(lines[k]).Some?
    ensures r.Some? ==> |r.value| == |lines| && forall k :: 0 <= k < |lines| ==> ParseOp(lines[k]) == Some(r.value[k])
  {
    if lines == [] then Some([])
    else
      match ParseOp(lines[0])
      case None => None
      case Some(op) =>
        match ParseInput(lines[1..])
        case None =>
          assert forall k :: 1 <= k < |lines| ==> lines[1..][k - 1] == lines[k];
          None
        case Some(rest) =>
          assert forall k :: 1 <= k < |lines| ==> lines[1..][k - 1] == lines[k];
          Some([op] + rest)
  }

  /** The number of cycles the program takes. */
  function CyclesOf(ops: seq<Op>): (n: nat)
    ensures |ops| <= n <= 2 * |ops|
  {
    if ops == [] then 0 else CyclesOf(ops[..|ops| - 1]) + Cycles(ops[|ops| - 1])
  }

  /** The register once the whole program has run. */
  function XAfter(ops: seq<Op>): int
  {
    if ops == [] then 1 else Operate(ops[|ops| - 1], XAfter(ops[..|ops| - 1]))
  }

  /** The sum of the `addx` operands. */
  function AddTotal(ops: seq<Op>): int
  {
    if ops == [] then 0
    else AddTotal(ops[..|ops| - 1]) + (match ops[|ops| - 1] case Add(i) => i case Noop => 0)
  }

  /** The register is its initial 1 plus every operand added so far. */
  lemma {:induction false} XAfterIsTotal(ops: seq<Op>)
    ensures XAfter(ops) == 1 + AddTotal(ops)
  {
    if ops != [] {
      XAfterIsTotal(ops[..|ops| - 1]);
    }
  }

  /** The register during cycle `c` (counting from 1): its value after the
      longest prefix of the program that completes before cycle `c` begins. */
  function During(ops: seq<Op>, c: int): int
  {
    if ops == [] || 1 + CyclesOf(ops) <= c then XAfter(ops)
    else During(ops[..|ops| - 1], c)
  }

  lemma {:induction false} CyclesOfPrefix(ops: seq<Op>, n: nat)
    requires n <= |ops|
    ensures CyclesOf(ops[..n]) <= CyclesOf(ops)
  {
    if n < |ops| {
      var init := ops[..|ops| - 1];
      assert init[..n] == ops[..n];
      CyclesOfPrefix(init, n);
    } else {
      assert ops[..n] == ops;
    }
  }

  /** Cycles up to the end of a prefix only depend on that prefix. */
  lemma {:induction false} DuringPrefix(ops: seq<Op>, n: nat, c: int)
    requires n <= |ops| && c <= CyclesOf(ops[..n])
    ensures During(ops, c) == During(ops[..n], c)
  {
    if n < |ops| {
      var init := ops[..|ops| - 1];
      assert init[..n] == ops[..n];
      CyclesOfPrefix(init, n);
      DuringPrefix(init, n, c);
    } else {
      assert ops[..n] == ops;
    }
  }

  /** While an instruction runs, the register holds the value from before it. */
  lemma DuringInstruction(ops: seq<Op>, op: Op, c: int)
    requires 1 + CyclesOf(ops) <= c < 1 + CyclesOf(ops + [op])
    ensures During(ops + [op], c) == XAfter(ops)
  {
    var p := ops + [op];
    assert p[..|p| - 1] == ops;
  }

  /** Cycle `20 + 40 * j`: the `j`-th cycle whose signal strength counts. */
  function Milestone(j: nat): nat
  {
    20 + 40 * j
  }

  /** The signal strengths of the first `k` milestones the program reaches. */
  function SignalUpTo(ops: seq<Op>, k: nat): int
  {
    if k == 0 then 0
    else
      var m := Milestone(k - 1);
      SignalUpTo(ops, k - 1) + (if m <= CyclesOf(ops) then m * During(ops, m) else 0)
  }

  /** The answer of part 1: cycles 20, 60, ..., 220, each that the program
      reaches. */
  function Signal(ops: seq<Op>): int
  {
    SignalUpTo(ops, 6)
  }

  lemma {:induction false} SignalUpToPrefix(ops: seq<Op>, n: nat, k: nat)
    requires n <= |ops|
    requires forall j :: 0 <= j < k ==> Milestone(j) <= CyclesOf(ops[..n])
    ensures SignalUpTo(ops, k) == SignalUpTo(ops[..n], k)
  {
    if k > 0 {
      SignalUpToPrefix(ops, n, k - 1);
      CyclesOfPrefix(ops, n);
      DuringPrefix(ops, n, Milestone(k - 1));
    }
  }

  lemma {:induction false} SignalUpToUnreached(ops: seq<Op>, k: nat, n: nat)
    requires k <= n
    requires forall j :: k <= j < n ==> Milestone(j) > CyclesOf(ops)
    ensures SignalUpTo(ops, n) == SignalUpTo(ops, k)
  {
    if k < n {
      SignalUpToUnreached(ops, k, n - 1);
    }
  }

  /** One more instruction leaves the milestones already passed alone, and
      adds the next milestone when it runs through it. */
  lemma SignalStep(before: seq<Op>, op: Op, k: nat)
    requires k > 0 ==> Milestone(k - 1) <= CyclesOf(before)
    ensures CyclesOf(before + [op]) == CyclesOf(before) + Cycles(op)
    ensures XAfter(before + [op]) == Operate(op, XAfter(before))
    ensures SignalUpTo(before + [op], k) == SignalUpTo(before, k)
    ensures 1 + CyclesOf(before) <= Milestone(k) < 1 + CyclesOf(before + [op]) ==>
      SignalUpTo(before + [op], k + 1) == SignalUpTo(before, k) + Milestone(k) * XAfter(before)
  {
    var after := before + [op];
    assert after[..|after| - 1] == before;
    assert after[..|before|] == before;
    forall j | 0 <= j < k
      ensures Milestone(j) <= CyclesOf(after[..|before|])
    {
    }
    SignalUpToPrefix(after, |before|, k);
    if 1 + CyclesOf(before) <= Milestone(k) < 1 + CyclesOf(after) {
      DuringInstruction(before, op, Milestone(k));
    }
  }

  /** `solve_first`: one pass over the program, stopping once cycle 220 is
      behind it. */
  method SolveFirst(ops: seq<Op>) returns (val: int)
    ensures val == Signal(ops)
  {
    var cycles, x, milestone := 1, 1, 20;
    val := 0;
    ghost var k: nat := 0;
    var i := 0;
    while i < |ops|
      invariant 0 <= i <= |ops|
      invariant cycles == 1 + CyclesOf(ops[..i]) && x == XAfter(ops[..i])
      invariant milestone == Milestone(k) && cycles <= milestone && k <= 6
      invariant cycles <= 222
      invariant k > 0 ==> Milestone(k - 1) < cycles
      invariant val == SignalUpTo(ops[..i], k)
    {
      if cycles > 220 {
        break;
      }
      var op := ops[i];
      ghost var before := ops[..i];
      assert ops[..i + 1] == before + [op];
      SignalStep(before, op, k);
      cycles := cycles + Cycles(op);
      if cycles > milestone {
        val := val + milestone * x;
        milestone := milestone + 40;
        k := k + 1;
      }
      x := Operate(op, x);
      i := i + 1;
    }
    if i == |ops| {
      assert ops[..i] == ops;
      SignalUpToUnreached(ops, k, 6);
    } else {
      assert k == 6;
      SignalUpToPrefix(ops, i, 6);
    }
  }

  /** The CRT pixel drawn at (0-based) cycle `c` while the register is `x`. */
  function Pixel(x: int, c: nat): char
  {
    if Abs(x - c % 40) <= 1 then '#' else '.'
  }

  function Abs(i: int): nat
  {
    if i < 0 then -i else i
  }

  /** One pixel per cycle the program takes, drawn with the register's value
      during that cycle. */
  function Pixels(ops: seq<Op>): (r: string)
    ensures |r| == CyclesOf(ops)
  {
    seq(CyclesOf(ops), c requires 0 <= c => Pixel(During(ops, c + 1), c))
  }

  /** The screen is drawn as the program runs: a prefix of the program draws
      a prefix of the pixels, which later instructions leave alone. */
  lemma PixelsPrefix(ops: seq<Op>, n: nat)
    requires n <= |ops|
    ensures CyclesOf(ops[..n]) <= CyclesOf(ops)
    ensures Pixels(ops[..n]) == Pixels(ops)[..CyclesOf(ops[..n])]
  {
    CyclesOfPrefix(ops, n);
    var small, all := Pixels(ops[..n]), Pixels(ops);
    var m := CyclesOf(ops[..n]);
    forall c | 0 <= c < m
      ensures small[c] == all[c]
    {
      PixelOfPrefix(ops, n, c);
    }
    assert small == all[..m];
  }

  lemma PixelOfPrefix(ops: seq<Op>, n: nat, c: nat)
    requires n <= |ops| && c < CyclesOf(ops[..n])
    ensures c < CyclesOf(ops) && Pixels(ops[..n])[c] == Pixels(ops)[c]
  {
    CyclesOfPrefix(ops, n);
    DuringPrefix(ops, n, c + 1);
    PixelAt(ops, c);
    PixelAt(ops[..n], c);
  }

  /** Pixel `c` is drawn with the register's value during cycle `c + 1`. */
  lemma PixelAt(ops: seq<Op>, c: nat)
    requires c < CyclesOf(ops)
    ensures Pixels(ops)[c] == Pixel(During(ops, c + 1), c)
  {
  }

  /** `chunks(40).take(6)`: at most six rows of at most forty pixels. */
  function Rows(pixels: string): (r: seq<string>)
    ensures |r| <= 6
    ensures forall k :: 0 <= k < |r| ==> 1 <= |r[k]| <= 40
  {
    var chunks := Chunks(pixels, 40);
    if |chunks| <= 6 then chunks else chunks[..6]
  }

  /** The rows joined by line feeds. */
  function Screen(pixels: string): string
  {
    Join(Rows(pixels), "\n")
  }

  /** The rows hold the first 240 pixels, in order. */
  lemma RowsConcat(pixels: string)
    ensures Concat(Rows(pixels)) == pixels[..Min(240, |pixels|)]
  {
    var chunks := Chunks(pixels, 40);
    ChunksConcat(pixels, 40);
    if |chunks| > 6 {
      ConcatPrefix(chunks, 6, 40);
    } else {
      assert pixels[..Min(240, |pixels|)] == pixels;
    }
  }

  /** A screen of at least one pixel splits back into its rows at the line
      feeds. */
  lemma ScreenSplit(pixels: string)
    requires |pixels| > 0
    requires forall c :: 0 <= c < |pixels| ==> pixels[c] == '#' || pixels[c] == '.'
    ensures SplitOn(Screen(pixels), "\n") == Rows(pixels)
  {
    var rows := Rows(pixels);
    assert |Chunks(pixels, 40)| > 0;
    forall k | 0 <= k < |rows|
      ensures '\n' !in rows[k]
    {
      RowPixels(pixels, rows, k);
    }
    SplitJoin(rows, "\n");
    assert "\n" == ['\n'];
  }

  /** Every pixel is lit or dark. */
  lemma PixelsAreLitOrDark(ops: seq<Op>)
    ensures forall c :: 0 <= c < |Pixels(ops)| ==> Pixels(ops)[c] == '#' || Pixels(ops)[c] == '.'
  {
  }

  /** The screen of a program shows its first 240 pixels, as six rows at
      most, each of at most forty pixels, separated by line feeds. */
  lemma ScreenOfProgram(ops: seq<Op>)
    ensures Concat(Rows(Pixels(ops))) == Pixels(ops)[..Min(240, CyclesOf(ops))]
    ensures CyclesOf(ops) > 0 ==> SplitOn(Screen(Pixels(ops)), "\n") == Rows(Pixels(ops))
  {
    RowsConcat(Pixels(ops));
    if CyclesOf(ops) > 0 {
      PixelsAreLitOrDark(ops);
      ScreenSplit(Pixels(ops));
    }
  }

  /** `solve_second`: one pixel per cycle, pushed while the instruction runs,
      then the pixels cut into rows. */
  method SolveSecond(ops: seq<Op>) returns (screen: string)
    ensures screen == Screen(Pixels(ops))
  {
    var res: string := [];
    var cycles: nat, x := 0, 1;
    var i := 0;
    while i < |ops|
      invariant 0 <= i <= |ops|
      invariant cycles == CyclesOf(ops[..i]) == |res| && x == XAfter(ops[..i])
      invariant forall c :: 0 <= c < |res| ==> res[c] == Pixel(During(ops, c + 1), c)
    {
      var op := ops[i];
      assert ops[..i + 1] == ops[..i] + [op];
      res := DrawInstruction(ops, i, cycles, x, res);
      cycles := cycles + Cycles(op);
      x := Operate(op, x);
      i := i + 1;
    }
    assert ops[..i] == ops;
    assert res == Pixels(ops);
    screen := Join(Rows(res), "\n");
  }

  /** The inner loop of `solve_second`: one pixel for each cycle of
      instruction `i`, drawn with the register's value before it. */
  method DrawInstruction(ops: seq<Op>, i: nat, cycles: nat, x: int, res: string) returns (drawn: string)
    requires i < |ops| && cycles == CyclesOf(ops[..i]) == |res| && x == XAfter(ops[..i])
    requires forall c :: 0 <= c < |res| ==> res[c] == Pixel(During(ops, c + 1), c)
    ensures |drawn| == cycles + Cycles(ops[i])
    ensures forall c :: 0 <= c < |drawn| ==> drawn[c] == Pixel(During(ops, c + 1), c)
  {
    assert ops[..i + 1] == ops[..i] + [ops[i]];
    CyclesOfPrefix(ops, i + 1);
    drawn := res;
    var j := 0;
    while j < Cycles(ops[i])
      invariant 0 <= j <= Cycles(ops[i])
      invariant |drawn| == cycles + j
      invariant forall c :: 0 <= c < |drawn| ==> drawn[c] == Pixel(During(ops, c + 1), c)
    {
      DuringStep(ops, i, cycles + j + 1);
      if Abs(x - (cycles + j) % 40) <= 1 {
        drawn := drawn + ['#'];
      } else {
        drawn := drawn + ['.'];
      }
      j := j + 1;
    }
  }

  /** While instruction `i` runs, the register holds its value from before
      that instruction. */
  lemma DuringStep(ops: seq<Op>, i: nat, c: int)
    requires i < |ops| && 1 + CyclesOf(ops[..i]) <= c < 1 + CyclesOf(ops[..i + 1])
    ensures During(ops, c) == XAfter(ops[..i])
  {
    assert ops[..i + 1] == ops[..i] + [ops[i]];
    DuringInstruction(ops[..i], ops[i], c);
    DuringPrefix(ops, i + 1, c);
  }

  function Min(a: int, b: int): int
  {
    if a < b then a else b
  }

  /** The first `k` chunks of size `n` hold the first `k * n` elements. */
  lemma {:induction false} ConcatPrefix(chunks: seq<string>, k: nat, n: nat)
    requires k <= |chunks|
    requires forall j :: 0 <= j < k ==> |chunks[j]| == n
    ensures |Concat(chunks)| >= k * n
    ensures Concat(chunks[..k]) == Concat(chunks)[..k * n]
  {
    if k > 0 {
      var rest := chunks[1..];
      ConcatPrefix(rest, k - 1, n);
      assert k * n == n + (k - 1) * n;
      assert chunks[..k] == [chunks[0]] + rest[..k - 1];
      assert Concat(chunks[..k]) == chunks[0] + Concat(rest[..k - 1]);
      PrefixOfAppend(chunks[0], Concat(rest), (k - 1) * n);
    } else {
      assert chunks[..0] == [];
    }
  }

  lemma RowPixels(pixels: string, rows: seq<string>, k: nat)
    requires rows == Rows(pixels) && k < |rows|
    requires forall c :: 0 <= c < |pixels| ==> pixels[c] == '#' || pixels[c] == '.'
    ensures '\n' !in rows[k]
  {
    var chunks := Chunks(pixels, 40);
    assert rows[k] == chunks[k];
    forall j | 0 <= j < |rows[k]|
      ensures rows[k][j] != '\n'
    {
      ChunkAt(pixels, 40, k, j);
    }
  }
}
