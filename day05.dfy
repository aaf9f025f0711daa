/** Day 5: crate stacks. The input lists one stack per line (crates from bottom
    to top) up to the first empty line, then instructions `move c from f to t`
    with 1-based stack numbers. Part 1 moves crates one at a time (so a moved
    block arrives reversed), part 2 moves each block at once (keeping its
    order); both answer with the top crate of every stack. */
module Day05 {
  import opened Common
  import opened Text

  /** Stack numbers already made 0-based. */
  datatype Instruction = Instruction(count: nat, from: nat, to: nat)

  datatype Input = Input(stacks: seq<seq<char>>, insts: seq<Instruction>)

  type Stacks = seq<seq<char>>

  /* ---------------------------------------------------------------- parsing */

  /** `slice[1]`, `slice[3]` and `slice[5]` of the ASCII-whitespace separated
      words, parsed as `usize`; stack numbers lose 1, and a stack number 0
      underflows. Too few words or a bad number panics (`None`). */
  function ParseInstruction(line: string): (r: Option<Instruction>)
    ensures r.Some? ==> |AsciiWords(line)| >= 6
  {
    var words := AsciiWords(line);
    if |words| < 6 then None
    else
      match ParseNat(words[1])
      case None => None
      case Some(count) =>
        match ParseNat(words[3])
        case None => None
        case Some(from) =>
          match ParseNat(words[5])
          case None => None
          case Some(to) =>
            if from == 0 || to == 0 then None
            else Some(Instruction(count, from - 1, to - 1))
  }

  /** The text of an instruction, with 1-based stack numbers. */
  function ShowInstruction(inst: Instruction): string
  {
    Join(InstructionWords(inst), " ")
  }

  lemma NumeralIsWord(n: nat)
    ensures IsWord(ShowNat(n), IsAsciiWhitespace)
  {
    var s := ShowNat(n);
    assert forall i :: 0 <= i < |s| ==> IsDigit(s[i]);
  }

  /** Writing an instruction out and parsing it gives it back. */
  lemma ParseShowInstruction(inst: Instruction)
    ensures ParseInstruction(ShowInstruction(inst)) == Some(inst)
  {
    var ws := InstructionWords(inst);
    WordsOfShowInstruction(inst);
    ParseShowNat(inst.count);
    ParseShowNat(inst.from + 1);
    ParseShowNat(inst.to + 1);
    ParseWords(ShowInstruction(inst), ws, inst);
  }

  function InstructionWords(inst: Instruction): seq<string>
  {
    ["move", ShowNat(inst.count), "from", ShowNat(inst.from + 1), "to", ShowNat(inst.to + 1)]
  }

  lemma WordsOfShowInstruction(inst: Instruction)
    ensures AsciiWords(ShowInstruction(inst)) == InstructionWords(inst)
  {
    var ws := InstructionWords(inst);
    NumeralIsWord(inst.count);
    NumeralIsWord(inst.from + 1);
    NumeralIsWord(inst.to + 1);
    assert IsWord("move", IsAsciiWhitespace) && IsWord("from", IsAsciiWhitespace) && IsWord("to", IsAsciiWhitespace);
    FieldsOfJoin(ws, IsAsciiWhitespace);
  }

  lemma ParseWords(line: string, ws: seq<string>, inst: Instruction)
    requires AsciiWords(line) == ws && |ws| == 6
    requires ParseNat(ws[1]) == Some(inst.count)
    requires ParseNat(ws[3]) == Some(inst.from + 1)
    requires ParseNat(ws[5]) == Some(inst.to + 1)
    ensures ParseInstruction(line) == Some(inst)
  {
  }

  /** Prepends known items to a list that may have failed to parse. */
  function Prepend<T>(xs: seq<T>, rest: Option<seq<T>>): Option<seq<T>>
  {
    match rest
    case None => None
    case Some(ys) => Some(xs + ys)
  }

  /** The instruction lines: empty lines are skipped, every other line must
      parse. */
  function ParseInstructions(lines: seq<string>): (r: Option<seq<Instruction>>)
  {
    if lines == [] then Some([])
    else if lines[0] == "" then ParseInstructions(lines[1..])
    else
      match ParseInstruction(lines[0])
      case None => None
      case Some(inst) => Prepend([inst], ParseInstructions(lines[1..]))
  }

  /** Instructions are read exactly when every non-empty line parses. */
  lemma {:induction false} ParseInstructionsAll(lines: seq<string>)
    ensures ParseInstructions(lines).Some? <==>
      forall k :: 0 <= k < |lines| && lines[k] != "" ==> ParseInstruction(lines[k]).Some?
  {
    if lines != [] {
      ParseInstructionsAll(lines[1..]);
      assert forall k :: 1 <= k < |lines| ==> lines[k] == lines[1..][k - 1];
    }
  }

  /** Index of the first empty line, or the number of lines. */
  function FirstEmpty(lines: seq<string>): (k: nat)
    ensures k <= |lines|
    ensures forall i :: 0 <= i < k ==> lines[i] != ""
    ensures k < |lines| ==> lines[k] == ""
  {
    if lines == [] || lines[0] == "" then 0
    else
      var k := FirstEmpty(lines[1..]);
      assert forall i :: 1 <= i < |lines| ==> lines[i] == lines[1..][i - 1];
      1 + k
  }

  /** What `parse_input` produces: the lines before the first empty line are
      the stacks, and the non-empty lines after it are the instructions. */
  function ParseSpec(lines: seq<string>): Option<Input>
  {
    var k := FirstEmpty(lines);
    match ParseInstructions(lines[k..])
    case None => None
    case Some(insts) => Some(Input(lines[..k], insts))
  }

  /** One instruction line per instruction. */
  function ShowInstructions(insts: seq<Instruction>): (r: seq<string>)
    ensures |r| == |insts| && forall k :: 0 <= k < |insts| ==> r[k] == ShowInstruction(insts[k])
  {
    seq(|insts|, k requires 0 <= k < |insts| => ShowInstruction(insts[k]))
  }

  /** Instruction lines written out are read back, none of them empty. */
  lemma {:induction false} ParseShowInstructions(insts: seq<Instruction>)
    ensures ParseInstructions(ShowInstructions(insts)) == Some(insts)
  {
    if insts != [] {
      var ls := ShowInstructions(insts);
      ParseShowInstruction(insts[0]);
      WordsOfShowInstruction(insts[0]);
      assert ls[0] != "";
      assert ls[1..] == ShowInstructions(insts[1..]);
      ParseShowInstructions(insts[1..]);
      assert [insts[0]] + insts[1..] == insts;
    }
  }

  /** The input's layout reads back: stack lines (none empty), an empty line,
      then the instructions written out. */
  lemma ParseSpecOfLayout(stacks: Stacks, insts: seq<Instruction>)
    requires forall k :: 0 <= k < |stacks| ==> stacks[k] != ""
    ensures ParseSpec(stacks + [""] + ShowInstructions(insts)) == Some(Input(stacks, insts))
  {
    var rest := ShowInstructions(insts);
    var lines := stacks + [""] + rest;
    var n := |stacks|;
    assert lines[n] == "";
    assert forall i :: 0 <= i < n ==> lines[i] == stacks[i];
    assert FirstEmpty(lines) == n;
    assert lines[..n] == stacks;
    assert lines[n..][0] == "" && lines[n..][1..] == rest;
    ParseShowInstructions(insts);
  }

  lemma ParseInstructionsStep(lines: seq<string>, i: nat)
    requires i < |lines|
    ensures lines[i] == "" ==> ParseInstructions(lines[i..]) == ParseInstructions(lines[i + 1..])
    ensures lines[i] != "" ==>
      ParseInstructions(lines[i..]) ==
        match ParseInstruction(lines[i])
        case None => None
        case Some(inst) => Prepend([inst], ParseInstructions(lines[i + 1..]))
  {
    assert lines[i..][0] == lines[i];
    assert lines[i..][1..] == lines[i + 1..];
  }

  lemma PrependNil<T>(rest: Option<seq<T>>)
    ensures Prepend([], rest) == rest
  {
    if rest.Some? {
      assert [] + rest.value == rest.value;
    }
  }

  lemma PrependPrepend<T>(xs: seq<T>, ys: seq<T>, rest: Option<seq<T>>)
    ensures Prepend(xs, Prepend(ys, rest)) == Prepend(xs + ys, rest)
  {
    if rest.Some? {
      assert xs + (ys + rest.value) == (xs + ys) + rest.value;
    }
  }

  /** What the single pass knows after `i` lines: the flag is up once the
      first empty line is passed; until then every line went to the stacks,
      and after it the instructions read so far begin what the lines after the
      first empty line parse to. */
  ghost predicate Scanned(lines: seq<string>, i: nat, finished: bool, stacks: Stacks, insts: seq<Instruction>)
  {
    var k := FirstEmpty(lines);
    i <= |lines|
    && (finished <==> k < i)
    && (!finished ==> stacks == lines[..i] && insts == [])
    && (finished ==> stacks == lines[..k] && ParseInstructions(lines[k..]) == Prepend(insts, ParseInstructions(lines[i..])))
  }

  lemma ScanEmptyLine(lines: seq<string>, i: nat, finished: bool, stacks: Stacks, insts: seq<Instruction>)
    requires Scanned(lines, i, finished, stacks, insts) && i < |lines| && lines[i] == ""
    ensures Scanned(lines, i + 1, true, stacks, insts)
  {
    ParseInstructionsStep(lines, i);
    if !finished {
      PrependNil(ParseInstructions(lines[i + 1..]));
    }
  }

  lemma ScanStackLine(lines: seq<string>, i: nat, stacks: Stacks, insts: seq<Instruction>)
    requires Scanned(lines, i, false, stacks, insts) && i < |lines| && lines[i] != ""
    ensures Scanned(lines, i + 1, false, stacks + [lines[i]], insts)
  {
    TakeSnoc(lines, i);
  }

  lemma ScanInstructionLine(lines: seq<string>, i: nat, stacks: Stacks, insts: seq<Instruction>)
    requires Scanned(lines, i, true, stacks, insts) && i < |lines| && lines[i] != ""
    ensures ParseInstruction(lines[i]).None? ==> ParseSpec(lines) == None
    ensures ParseInstruction(lines[i]).Some? ==>
      Scanned(lines, i + 1, true, stacks, insts + [ParseInstruction(lines[i]).value])
  {
    ParseInstructionsStep(lines, i);
    if ParseInstruction(lines[i]).Some? {
      PrependPrepend(insts, [ParseInstruction(lines[i]).value], ParseInstructions(lines[i + 1..]));
    }
  }

  lemma ScanDone(lines: seq<string>, finished: bool, stacks: Stacks, insts: seq<Instruction>)
    requires Scanned(lines, |lines|, finished, stacks, insts)
    ensures ParseSpec(lines) == Some(Input(stacks, insts))
  {
    var k := FirstEmpty(lines);
    assert lines[|lines|..] == [];
    if !finished {
      assert lines[..|lines|] == lines;
      assert k == |lines| && lines[k..] == [];
    }
    assert ParseInstructions(lines[k..]) == Some(insts) by {
      assert insts + [] == insts;
    }
  }

  /** `parse_input`: a single pass over the lines with a flag that is raised
      by the first empty line. */
  method ParseInput(lines: seq<string>) returns (r: Option<Input>)
    ensures r == ParseSpec(lines)
  {
    var stacks: Stacks := [];
    var insts: seq<Instruction> := [];
    var finished := false;
    var i := 0;
    while i < |lines|
      // compared with `true` so that the predicate is kept whole rather than split
      invariant Scanned(lines, i, finished, stacks, insts) == true
    {
      var ok;
      ok, finished, stacks, insts := ScanLine(lines, i, finished, stacks, insts);
      if !ok {
        return None;
      }
      i := i + 1;
    }
    ScanDone(lines, finished, stacks, insts);
    return Some(Input(stacks, insts));
  }

  /** One step of the pass: an empty line raises the flag, a line before it
      goes to the stacks, and a line after it adds its instruction or makes the
      whole parse fail. */
  method ScanLine(lines: seq<string>, i: nat, finished: bool, stacks: Stacks, insts: seq<Instruction>)
      returns (ok: bool, finished': bool, stacks': Stacks, insts': seq<Instruction>)
    requires Scanned(lines, i, finished, stacks, insts) && i < |lines|
    ensures !ok ==> ParseSpec(lines) == None
    ensures ok ==> Scanned(lines, i + 1, finished', stacks', insts')
  {
    ok, finished', stacks', insts' := true, finished, stacks, insts;
    var line := lines[i];
    if line == "" {
      ScanEmptyLine(lines, i, finished, stacks, insts);
      finished' := true;
    } else if !finished {
      ScanStackLine(lines, i, stacks, insts);
      stacks' := stacks + [line];
    } else {
      var inst := ParseInstruction(line);
      ScanInstructionLine(lines, i, stacks, insts);
      ok := inst.Some?;
      if ok {
        insts' := insts + [inst.value];
      }
    }
  }

  /* ---------------------------------------------------------------- moves */

  function TotalCrates(stacks: Stacks): nat
  {
    if stacks == [] then 0 else |stacks[0]| + TotalCrates(stacks[1..])
  }

  lemma {:induction false} TotalCratesUpdate(stacks: Stacks, k: nat, s: seq<char>)
    requires k < |stacks|
    ensures TotalCrates(stacks[k := s]) + |stacks[k]| == TotalCrates(stacks) + |s|
  {
    if k > 0 {
      assert stacks[k := s][1..] == stacks[1..][k - 1 := s];
      TotalCratesUpdate(stacks[1..], k - 1, s);
    } else {
      assert stacks[k := s][1..] == stacks[1..];
    }
  }

  /** The top crate leaves `from` (`pop().unwrap()`) and lands on `to`; an
      empty `from` or a stack number past the end panics. */
  function MoveOne(stacks: Stacks, from: nat, to: nat): (r: Option<Stacks>)
    ensures r.Some? <==> from < |stacks| && stacks[from] != [] && to < |stacks|
    ensures r.Some? ==> |r.value| == |stacks| && TotalCrates(r.value) == TotalCrates(stacks)
    ensures r.Some? ==> forall k :: 0 <= k < |stacks| && k != from && k != to ==> r.value[k] == stacks[k]
  {
    if from >= |stacks| || stacks[from] == [] || to >= |stacks| then None
    else
      var s := stacks[from];
      var popped := stacks[from := s[..|s| - 1]];
      TotalCratesUpdate(stacks, from, s[..|s| - 1]);
      TotalCratesUpdate(popped, to, popped[to] + [s[|s| - 1]]);
      Some(popped[to := popped[to] + [s[|s| - 1]]])
  }

  /** Part 1's inner loop: `count` single-crate moves. */
  function MoveCrates(stacks: Stacks, from: nat, to: nat, count: nat): (r: Option<Stacks>)
    ensures r.Some? ==> |r.value| == |stacks| && TotalCrates(r.value) == TotalCrates(stacks)
    ensures r.Some? ==> forall k :: 0 <= k < |stacks| && k != from && k != to ==> r.value[k] == stacks[k]
    decreases count
  {
    if count == 0 then Some(stacks)
    else
      match MoveOne(stacks, from, to)
      case None => None
      case Some(next) => MoveCrates(next, from, to, count - 1)
  }

  function Reverse<T>(s: seq<T>): (r: seq<T>)
    ensures |r| == |s|
    ensures forall i :: 0 <= i < |s| ==> r[i] == s[|s| - 1 - i]
  {
    if s == [] then [] else Reverse(s[1..]) + [s[0]]
  }

  /** Between two different stacks, `count` single moves take the top `count`
      crates off `from` and put them on `to` in reverse order; they fail
      exactly when `from` holds fewer than `count` crates. */
  lemma {:induction false} MoveCratesReverses(stacks: Stacks, from: nat, to: nat, count: nat)
    requires from < |stacks| && to < |stacks| && from != to
    ensures MoveCrates(stacks, from, to, count).Some? <==> count <= |stacks[from]|
    ensures count <= |stacks[from]| ==>
      var s := stacks[from];
      MoveCrates(stacks, from, to, count)
        == Some(stacks[from := s[..|s| - count]][to := stacks[to] + Reverse(s[|s| - count..])])
    decreases count
  {
    var s := stacks[from];
    if count == 0 {
      assert s[..|s|] == s && s[|s|..] == [];
      assert stacks[to] + [] == stacks[to];
      assert stacks[from := s][to := stacks[to] + []] == stacks;
    } else if s == [] {
    } else {
      var next := stacks[from := s[..|s| - 1]][to := stacks[to] + [s[|s| - 1]]];
      MoveCratesUnfold(stacks, from, to, count, next);
      MoveCratesReverses(next, from, to, count - 1);
      if count <= |s| {
        MovedTopsCombine(stacks, from, to, count, next);
      }
    }
  }

  /** The first of `count` single moves puts the top crate of `from` on `to`. */
  lemma MoveCratesUnfold(stacks: Stacks, from: nat, to: nat, count: nat, next: Stacks)
    requires from < |stacks| && to < |stacks| && from != to && count > 0 && stacks[from] != []
    requires var s := stacks[from]; next == stacks[from := s[..|s| - 1]][to := stacks[to] + [s[|s| - 1]]]
    ensures next[from] == stacks[from][..|stacks[from]| - 1]
    ensures MoveCrates(stacks, from, to, count) == MoveCrates(next, from, to, count - 1)
  {
    assert MoveOne(stacks, from, to) == Some(next);
  }

  /** The top crate moved first, then the `count - 1` below it reversed, is
      the top `count` crates reversed. */
  lemma MovedTopsCombine(stacks: Stacks, from: nat, to: nat, count: nat, next: Stacks)
    requires from < |stacks| && to < |stacks| && from != to && 0 < count <= |stacks[from]|
    requires var s := stacks[from]; next == stacks[from := s[..|s| - 1]][to := stacks[to] + [s[|s| - 1]]]
    ensures var s := stacks[from]; var s' := next[from];
      next[from := s'[..|s'| - (count - 1)]][to := next[to] + Reverse(s'[|s'| - (count - 1)..])]
        == stacks[from := s[..|s| - count]][to := stacks[to] + Reverse(s[|s| - count..])]
  {
    var s := stacks[from];
    var top := s[|s| - 1];
    var s' := s[..|s| - 1];
    assert next[from] == s' && next[to] == stacks[to] + [top];
    assert s'[..|s'| - (count - 1)] == s[..|s| - count];
    ReverseTop(s, count);
    assert (stacks[to] + [top]) + Reverse(s'[|s'| - (count - 1)..]) == stacks[to] + Reverse(s[|s| - count..]);
    UpdateBothAgain(stacks, from, to, s', stacks[to] + [top], s[..|s| - count], stacks[to] + Reverse(s[|s| - count..]));
  }

  lemma UpdateBothAgain<T>(xs: seq<T>, i: nat, j: nat, a: T, b: T, c: T, d: T)
    requires i < |xs| && j < |xs| && i != j
    ensures xs[i := a][j := b][i := c][j := d] == xs[i := c][j := d]
  {
  }

  /** Reversing the top `count` elements puts the very top first. */
  lemma ReverseTop<T>(s: seq<T>, count: nat)
    requires 0 < count <= |s|
    ensures var s' := s[..|s| - 1];
      Reverse(s[|s| - count..]) == [s[|s| - 1]] + Reverse(s'[|s'| - (count - 1)..])
  {
    var s' := s[..|s| - 1];
    var block := s[|s| - count..];
    assert s'[|s'| - (count - 1)..] == block[..|block| - 1];
    ReverseSnoc(block[..|block| - 1], s[|s| - 1]);
    assert block == block[..|block| - 1] + [s[|s| - 1]];
  }

  lemma ReverseSnoc<T>(s: seq<T>, x: T)
    ensures Reverse(s + [x]) == [x] + Reverse(s)
  {
  }

  /** On a single stack, moving crates onto itself changes nothing, as long as
      it holds enough crates. */
  lemma {:induction false} MoveCratesOntoItself(stacks: Stacks, from: nat, count: nat)
    requires from < |stacks| && count <= |stacks[from]|
    ensures MoveCrates(stacks, from, from, count) == Some(stacks)
    decreases count
  {
    if count > 0 {
      var s := stacks[from];
      assert s[..|s| - 1] + [s[|s| - 1]] == s;
      assert stacks[from := s[..|s| - 1]][from := s] == stacks;
      MoveCratesOntoItself(stacks, from, count - 1);
    }
  }

  /** Part 2's move: `split_off(from_len - count)` then `append`. A count
      larger than the stack underflows; a stack number past the end panics. */
  function MoveBlock(stacks: Stacks, inst: Instruction): (r: Option<Stacks>)
    ensures r.Some? <==> inst.from < |stacks| && inst.count <= |stacks[inst.from]| && inst.to < |stacks|
    ensures r.Some? ==> |r.value| == |stacks| && TotalCrates(r.value) == TotalCrates(stacks)
    ensures r.Some? ==> forall k :: 0 <= k < |stacks| && k != inst.from && k != inst.to ==> r.value[k] == stacks[k]
  {
    if inst.from >= |stacks| || inst.count > |stacks[inst.from]| || inst.to >= |stacks| then None
    else
      var s := stacks[inst.from];
      var cut := |s| - inst.count;
      var rest := stacks[inst.from := s[..cut]];
      TotalCratesUpdate(stacks, inst.from, s[..cut]);
      TotalCratesUpdate(rest, inst.to, rest[inst.to] + s[cut..]);
      Some(rest[inst.to := rest[inst.to] + s[cut..]])
  }

  /** Between two different stacks the two crane models move the same crates,
      one reversing the block and the other keeping it; they fail on the same
      instructions. */
  lemma OneAtATimeVersusBlock(stacks: Stacks, inst: Instruction)
    requires inst.from < |stacks| && inst.to < |stacks| && inst.from != inst.to
    ensures MoveCrates(stacks, inst.from, inst.to, inst.count).Some? <==> MoveBlock(stacks, inst).Some?
    ensures MoveBlock(stacks, inst).Some? ==>
      var s := stacks[inst.from];
      var block := s[|s| - inst.count..];
      MoveBlock(stacks, inst).value[inst.to] == stacks[inst.to] + block
      && MoveCrates(stacks, inst.from, inst.to, inst.count).value[inst.to] == stacks[inst.to] + Reverse(block)
      && MoveBlock(stacks, inst).value[inst.from] == MoveCrates(stacks, inst.from, inst.to, inst.count).value[inst.from]
  {
    MoveCratesReverses(stacks, inst.from, inst.to, inst.count);
  }

  /** Part 2 onto the same stack leaves everything as it was. */
  lemma MoveBlockOntoItself(stacks: Stacks, inst: Instruction)
    requires inst.from < |stacks| && inst.count <= |stacks[inst.from]| && inst.from == inst.to
    ensures MoveBlock(stacks, inst) == Some(stacks)
  {
    var s := stacks[inst.from];
    var cut := |s| - inst.count;
    var rest := stacks[inst.from := s[..cut]];
    assert rest[inst.to] + s[cut..] == s;
    assert rest[inst.to := s] == stacks;
  }

  /** The stacks after all instructions under part 1's crane. */
  function RunOneAtATime(stacks: Stacks, insts: seq<Instruction>): (r: Option<Stacks>)
    ensures r.Some? ==> |r.value| == |stacks| && TotalCrates(r.value) == TotalCrates(stacks)
    decreases |insts|
  {
    if insts == [] then Some(stacks)
    else
      match MoveCrates(stacks, insts[0].from, insts[0].to, insts[0].count)
      case None => None
      case Some(next) => RunOneAtATime(next, insts[1..])
  }

  /** The stacks after all instructions under part 2's crane. */
  function RunBlocks(stacks: Stacks, insts: seq<Instruction>): (r: Option<Stacks>)
    ensures r.Some? ==> |r.value| == |stacks| && TotalCrates(r.value) == TotalCrates(stacks)
    decreases |insts|
  {
    if insts == [] then Some(stacks)
    else
      match MoveBlock(stacks, insts[0])
      case None => None
      case Some(next) => RunBlocks(next, insts[1..])
  }

  /** The top crate of every stack, in stack order; `last().unwrap()` panics on
      an empty stack. */
  function Tops(stacks: Stacks): (r: Option<string>)
    ensures r.Some? <==> forall k :: 0 <= k < |stacks| ==> stacks[k] != []
    ensures r.Some? ==> |r.value| == |stacks|
                        && forall k :: 0 <= k < |stacks| ==> r.value[k] == stacks[k][|stacks[k]| - 1]
  {
    if stacks == [] then Some([])
    else if stacks[0] == [] then None
    else
      var rest := Tops(stacks[1..]);
      assert forall k :: 1 <= k < |stacks| ==> stacks[k] == stacks[1..][k - 1];
      match rest
      case None => None
      case Some(t) => Some([stacks[0][|stacks[0]| - 1]] + t)
  }

  function AnswerOf(stacks: Option<Stacks>): Option<string>
  {
    match stacks
    case None => None
    case Some(s) => Tops(s)
  }

  /** `solve_first` works on a copy of the stacks, popping and pushing one crate
      at a time. */
  method SolveFirst(input: Input) returns (r: Option<string>)
    ensures r == AnswerOf(RunOneAtATime(input.stacks, input.insts))
  {
    var stacks := new seq<char>[|input.stacks|](i requires 0 <= i < |input.stacks| => input.stacks[i]);
    assert stacks[..] == input.stacks;
    var n := 0;
    while n < |input.insts|
      invariant 0 <= n <= |input.insts|
      invariant RunOneAtATime(input.stacks, input.insts) == RunOneAtATime(stacks[..], input.insts[n..])
    {
      var inst := input.insts[n];
      assert input.insts[n..][1..] == input.insts[n + 1..];
      var ok := MoveCratesInPlace(stacks, inst.from, inst.to, inst.count);
      if !ok {
        return None;
      }
      n := n + 1;
    }
    r := Tops(stacks[..]);
  }

  /** The body of part 1's instruction loop: `count` times `pop().unwrap()` on
      `from` and `push` on `to`. `ok` is false where the original panics. */
  method MoveCratesInPlace(stacks: array<seq<char>>, from: nat, to: nat, count: nat) returns (ok: bool)
    modifies stacks
    ensures ok <==> MoveCrates(old(stacks[..]), from, to, count).Some?
    ensures ok ==> MoveCrates(old(stacks[..]), from, to, count) == Some(stacks[..])
  {
    var j := 0;
    while j < count
      invariant 0 <= j <= count
      invariant MoveCrates(old(stacks[..]), from, to, count) == MoveCrates(stacks[..], from, to, count - j)
    {
      if from >= stacks.Length || stacks[from] == [] || to >= stacks.Length {
        return false;
      }
      ghost var before := stacks[..];
      var s := stacks[from];
      var ch := s[|s| - 1];
      stacks[from] := s[..|s| - 1];
      stacks[to] := stacks[to] + [ch];
      assert stacks[..] == MoveOne(before, from, to).value;
      j := j + 1;
    }
    return true;
  }

  /** `solve_second` works on a copy of the stacks, moving each block with
      `split_off` and `append`. */
  method SolveSecond(input: Input) returns (r: Option<string>)
    ensures r == AnswerOf(RunBlocks(input.stacks, input.insts))
  {
    var stacks := new seq<char>[|input.stacks|](i requires 0 <= i < |input.stacks| => input.stacks[i]);
    assert stacks[..] == input.stacks;
    var n := 0;
    while n < |input.insts|
      invariant 0 <= n <= |input.insts|
      invariant RunBlocks(input.stacks, input.insts) == RunBlocks(stacks[..], input.insts[n..])
    {
      var inst := input.insts[n];
      assert input.insts[n..][1..] == input.insts[n + 1..];
      var ok := MoveBlockInPlace(stacks, inst);
      if !ok {
        return None;
      }
      n := n + 1;
    }
    r := Tops(stacks[..]);
  }

  /** The body of part 2's instruction loop: `split_off` the top `count` crates
      of `from` and `append` them to `to`. `ok` is false where the original
      panics. */
  method MoveBlockInPlace(stacks: array<seq<char>>, inst: Instruction) returns (ok: bool)
    modifies stacks
    ensures ok <==> MoveBlock(old(stacks[..]), inst).Some?
    ensures ok ==> MoveBlock(old(stacks[..]), inst) == Some(stacks[..])
  {
    if inst.from >= stacks.Length || inst.count > |stacks[inst.from]| || inst.to >= stacks.Length {
      return false;
    }
    var fromLen := |stacks[inst.from]|;
    var moved := stacks[inst.from][fromLen - inst.count..];
    stacks[inst.from] := stacks[inst.from][..fromLen - inst.count];
    stacks[inst.to] := stacks[inst.to] + moved;
    return true;
  }

  /* ---------------------------------------------------------------- example */

  const ExampleStacks: Stacks := ["ZN", "MCD", "P"]
  const ExampleInsts: seq<Instruction> :=
    [Instruction(1, 1, 0), Instruction(3, 0, 2), Instruction(2, 1, 0), Instruction(1, 0, 1)]

  lemma RunOneAtATimeStep(stacks: Stacks, insts: seq<Instruction>, k: nat, next: Stacks)
    requires k < |insts|
    requires MoveCrates(stacks, insts[k].from, insts[k].to, insts[k].count) == Some(next)
    ensures RunOneAtATime(stacks, insts[k..]) == RunOneAtATime(next, insts[k + 1..])
  {
    assert insts[k..][0] == insts[k] && insts[k..][1..] == insts[k + 1..];
  }

  lemma RunBlocksStep(stacks: Stacks, insts: seq<Instruction>, k: nat, next: Stacks)
    requires k < |insts|
    requires MoveBlock(stacks, insts[k]) == Some(next)
    ensures RunBlocks(stacks, insts[k..]) == RunBlocks(next, insts[k + 1..])
  {
    assert insts[k..][0] == insts[k] && insts[k..][1..] == insts[k + 1..];
  }

  /** One instruction of the example under part 1's crane: `block` leaves the
      top of `from` and `to` receives it reversed. */
  lemma ExampleStepOne(stacks: Stacks, inst: Instruction, prefix: seq<char>, block: seq<char>, next: Stacks)
    requires inst.from < |stacks| && inst.to < |stacks| && inst.from != inst.to
    requires stacks[inst.from] == prefix + block && |block| == inst.count
    requires next == stacks[inst.from := prefix][inst.to := stacks[inst.to] + Reverse(block)]
    ensures MoveCrates(stacks, inst.from, inst.to, inst.count) == Some(next)
  {
    var s := stacks[inst.from];
    assert s[..|s| - inst.count] == prefix && s[|s| - inst.count..] == block;
    MoveCratesReverses(stacks, inst.from, inst.to, inst.count);
  }

  /** The same under part 2's crane: `to` receives the block as it is. */
  lemma ExampleStepBlock(stacks: Stacks, inst: Instruction, prefix: seq<char>, block: seq<char>, next: Stacks)
    requires inst.from < |stacks| && inst.to < |stacks| && inst.from != inst.to
    requires stacks[inst.from] == prefix + block && |block| == inst.count
    requires next == stacks[inst.from := prefix][inst.to := stacks[inst.to] + block]
    ensures MoveBlock(stacks, inst) == Some(next)
  {
    var s := stacks[inst.from];
    assert s[..|s| - inst.count] == prefix && s[|s| - inst.count..] == block;
  }

  lemma ExampleMove0()
    ensures MoveCrates(["ZN", "MCD", "P"], 1, 0, 1) == Some(["ZND", "MC", "P"])
    ensures MoveBlock(["ZN", "MCD", "P"], Instruction(1, 1, 0)) == Some(["ZND", "MC", "P"])
  {
    var s0: Stacks := ["ZN", "MCD", "P"];
    var a1: Stacks := ["ZND", "MC", "P"];
    assert Reverse("D") == "D";
    assert "MC" + "D" == "MCD" && "ZN" + "D" == "ZND";
    var r := s0[1 := "MC"][0 := "ZND"];
    assert |r| == 3 && r[0] == a1[0] && r[1] == a1[1] && r[2] == a1[2];
    ExampleStepOne(s0, Instruction(1, 1, 0), "MC", "D", a1);
    ExampleStepBlock(s0, Instruction(1, 1, 0), "MC", "D", a1);
  }

  lemma ExampleMove1()
    ensures MoveCrates(["ZND", "MC", "P"], 0, 2, 3) == Some(["", "MC", "PDNZ"])
  {
    var a1: Stacks := ["ZND", "MC", "P"];
    var a2: Stacks := ["", "MC", "PDNZ"];
    assert Reverse("ZND") == "DNZ" by {
      assert Reverse("ZND")[0] == 'D' && Reverse("ZND")[1] == 'N' && Reverse("ZND")[2] == 'Z';
    }
    assert "" + "ZND" == "ZND" && "P" + "DNZ" == "PDNZ";
    var r := a1[0 := ""][2 := "PDNZ"];
    assert |r| == 3 && r[0] == a2[0] && r[1] == a2[1] && r[2] == a2[2];
    ExampleStepOne(a1, Instruction(3, 0, 2), "", "ZND", a2);
  }

  lemma ExampleBlock1()
    ensures MoveBlock(["ZND", "MC", "P"], Instruction(3, 0, 2)) == Some(["", "MC", "PZND"])
  {
    var a1: Stacks := ["ZND", "MC", "P"];
    var b2: Stacks := ["", "MC", "PZND"];
    assert "" + "ZND" == "ZND" && "P" + "ZND" == "PZND";
    var q := a1[0 := ""][2 := "PZND"];
    assert |q| == 3 && q[0] == b2[0] && q[1] == b2[1] && q[2] == b2[2];
    ExampleStepBlock(a1, Instruction(3, 0, 2), "", "ZND", b2);
  }

  lemma ExampleMove2()
    ensures MoveCrates(["", "MC", "PDNZ"], 1, 0, 2) == Some(["CM", "", "PDNZ"])
    ensures MoveBlock(["", "MC", "PZND"], Instruction(2, 1, 0)) == Some(["MC", "", "PZND"])
  {
    var a2: Stacks := ["", "MC", "PDNZ"];
    var a3: Stacks := ["CM", "", "PDNZ"];
    var b2: Stacks := ["", "MC", "PZND"];
    var b3: Stacks := ["MC", "", "PZND"];
    assert Reverse("MC") == "CM" by {
      assert Reverse("MC")[0] == 'C' && Reverse("MC")[1] == 'M';
    }
    assert "" + "MC" == "MC" && "" + "CM" == "CM";
    var r := a2[1 := ""][0 := "CM"];
    assert |r| == 3 && r[0] == a3[0] && r[1] == a3[1] && r[2] == a3[2];
    var q := b2[1 := ""][0 := "MC"];
    assert |q| == 3 && q[0] == b3[0] && q[1] == b3[1] && q[2] == b3[2];
    ExampleStepOne(a2, Instruction(2, 1, 0), "", "MC", a3);
    ExampleStepBlock(b2, Instruction(2, 1, 0), "", "MC", b3);
  }

  lemma ExampleMove3()
    ensures MoveCrates(["CM", "", "PDNZ"], 0, 1, 1) == Some(["C", "M", "PDNZ"])
    ensures MoveBlock(["MC", "", "PZND"], Instruction(1, 0, 1)) == Some(["M", "C", "PZND"])
  {
    var a3: Stacks := ["CM", "", "PDNZ"];
    var a4: Stacks := ["C", "M", "PDNZ"];
    var b3: Stacks := ["MC", "", "PZND"];
    var b4: Stacks := ["M", "C", "PZND"];
    assert Reverse("M") == "M" && Reverse("C") == "C";
    assert "C" + "M" == "CM" && "" + "M" == "M" && "M" + "C" == "MC" && "" + "C" == "C";
    var r := a3[0 := "C"][1 := "M"];
    assert |r| == 3 && r[0] == a4[0] && r[1] == a4[1] && r[2] == a4[2];
    var q := b3[0 := "M"][1 := "C"];
    assert |q| == 3 && q[0] == b4[0] && q[1] == b4[1] && q[2] == b4[2];
    ExampleStepOne(a3, Instruction(1, 0, 1), "C", "M", a4);
    ExampleStepBlock(b3, Instruction(1, 0, 1), "M", "C", b4);
  }

  lemma RunOneAtATimeFour(insts: seq<Instruction>, s0: Stacks, s1: Stacks, s2: Stacks, s3: Stacks, s4: Stacks)
    requires |insts| == 4
    requires MoveCrates(s0, insts[0].from, insts[0].to, insts[0].count) == Some(s1)
    requires MoveCrates(s1, insts[1].from, insts[1].to, insts[1].count) == Some(s2)
    requires MoveCrates(s2, insts[2].from, insts[2].to, insts[2].count) == Some(s3)
    requires MoveCrates(s3, insts[3].from, insts[3].to, insts[3].count) == Some(s4)
    ensures RunOneAtATime(s0, insts) == Some(s4)
  {
    assert insts[0..] == insts && insts[4..] == [];
    RunOneAtATimeStep(s0, insts, 0, s1);
    RunOneAtATimeStep(s1, insts, 1, s2);
    RunOneAtATimeStep(s2, insts, 2, s3);
    RunOneAtATimeStep(s3, insts, 3, s4);
  }

  lemma RunBlocksFour(insts: seq<Instruction>, s0: Stacks, s1: Stacks, s2: Stacks, s3: Stacks, s4: Stacks)
    requires |insts| == 4
    requires MoveBlock(s0, insts[0]) == Some(s1)
    requires MoveBlock(s1, insts[1]) == Some(s2)
    requires MoveBlock(s2, insts[2]) == Some(s3)
    requires MoveBlock(s3, insts[3]) == Some(s4)
    ensures RunBlocks(s0, insts) == Some(s4)
  {
    assert insts[0..] == insts && insts[4..] == [];
    RunBlocksStep(s0, insts, 0, s1);
    RunBlocksStep(s1, insts, 1, s2);
    RunBlocksStep(s2, insts, 2, s3);
    RunBlocksStep(s3, insts, 3, s4);
  }

  lemma ExampleRunFirst()
    ensures RunOneAtATime(ExampleStacks, ExampleInsts) == Some(["C", "M", "PDNZ"])
  {
    ExampleMove0();
    ExampleMove1();
    ExampleMove2();
    ExampleMove3();
    RunOneAtATimeFour(ExampleInsts, ["ZN", "MCD", "P"], ["ZND", "MC", "P"], ["", "MC", "PDNZ"],
                      ["CM", "", "PDNZ"], ["C", "M", "PDNZ"]);
  }

  lemma ExampleRunSecond()
    ensures RunBlocks(ExampleStacks, ExampleInsts) == Some(["M", "C", "PZND"])
  {
    ExampleMove0();
    ExampleBlock1();
    ExampleMove2();
    ExampleMove3();
    RunBlocksFour(ExampleInsts, ["ZN", "MCD", "P"], ["ZND", "MC", "P"], ["", "MC", "PZND"],
                  ["MC", "", "PZND"], ["M", "C", "PZND"]);
  }

  /** The text of the tests, one line at a time. */
  const ExampleText: string :=
    "ZN\n" + "MCD\n" + "P\n" + "\n" + "move 1 from 2 to 1\n" + "move 3 from 1 to 3\n"
    + "move 2 from 2 to 1\n" + "move 1 from 1 to 2"

  lemma JoinSix(w0: string, w1: string, w2: string, w3: string, w4: string, w5: string, sep: string)
    ensures Join([w0, w1, w2, w3, w4, w5], sep) == w0 + sep + w1 + sep + w2 + sep + w3 + sep + w4 + sep + w5
  {
    var ws := [w0, w1, w2, w3, w4, w5];
    assert ws[5..] == [w5];
    JoinCons(ws, 4, sep);
    JoinCons(ws, 3, sep);
    JoinCons(ws, 2, sep);
    JoinCons(ws, 1, sep);
    JoinCons(ws, 0, sep);
    assert ws[0..] == ws;
  }

  lemma JoinCons(ws: seq<string>, k: nat, sep: string)
    requires k + 1 < |ws|
    ensures Join(ws[k..], sep) == ws[k] + sep + Join(ws[k + 1..], sep)
  {
    assert ws[k..][1..] == ws[k + 1..];
  }

  lemma SmallDigitChars()
    ensures DigitChar(1) == '1' && DigitChar(2) == '2' && DigitChar(3) == '3'
  {
  }

  /** An instruction with one-digit numbers, written out. */
  lemma ShowSmallInstruction(inst: Instruction, c: char, f: char, t: char, s: string)
    requires inst.count < 10 && inst.from < 9 && inst.to < 9
    requires c == DigitChar(inst.count) && f == DigitChar(inst.from + 1) && t == DigitChar(inst.to + 1)
    requires s == "move " + [c] + " from " + [f] + " to " + [t]
    ensures ShowInstruction(inst) == s
  {
    JoinSix("move", [c], "from", [f], "to", [t], " ");
  }

  lemma ConcatEight(a0: string, a1: string, a2: string, a3: string, a4: string, a5: string, a6: string, a7: string)
    ensures Concat([a0, a1, a2, a3, a4, a5, a6, a7]) == a0 + a1 + a2 + a3 + a4 + a5 + a6 + a7
  {
    var s := [a0, a1, a2, a3, a4, a5, a6, a7];
    assert s[8..] == [];
    ConcatCons(s, 7);
    ConcatCons(s, 6);
    ConcatCons(s, 5);
    ConcatCons(s, 4);
    ConcatCons(s, 3);
    ConcatCons(s, 2);
    ConcatCons(s, 1);
    ConcatCons(s, 0);
    assert s[0..] == s;
    assert a7 + [] == a7;
  }

  /** The example text is its eight lines joined by line feeds. */
  lemma ExampleTextJoin(text: string, ls: seq<string>)
    requires text == ExampleText
    requires ls == ["ZN", "MCD", "P", "", "move 1 from 2 to 1", "move 3 from 1 to 3", "move 2 from 2 to 1", "move 1 from 1 to 2"]
    ensures Join(ls, "\n") == text
  {
    var written := ["ZN\n", "MCD\n", "P\n", "\n", "move 1 from 2 to 1\n", "move 3 from 1 to 3\n", "move 2 from 2 to 1\n", "move 1 from 1 to 2"];
    ConcatEight("ZN\n", "MCD\n", "P\n", "\n", "move 1 from 2 to 1\n", "move 3 from 1 to 3\n", "move 2 from 2 to 1\n", "move 1 from 1 to 2");
    JoinIsConcat(ls, written);
  }

  /** The example's instruction lines, one at a time. */
  lemma ExampleLineOne(s: string)
    requires s == "move 1 from 2 to 1"
    ensures ShowInstruction(ExampleInsts[0]) == s
  {
    SmallDigitChars();
    ShowSmallInstruction(Instruction(1, 1, 0), '1', '2', '1', s);
  }

  lemma ExampleLineTwo(s: string)
    requires s == "move 3 from 1 to 3"
    ensures ShowInstruction(ExampleInsts[1]) == s
  {
    SmallDigitChars();
    ShowSmallInstruction(Instruction(3, 0, 2), '3', '1', '3', s);
  }

  lemma ExampleLineThree(s: string)
    requires s == "move 2 from 2 to 1"
    ensures ShowInstruction(ExampleInsts[2]) == s
  {
    SmallDigitChars();
    ShowSmallInstruction(Instruction(2, 1, 0), '2', '2', '1', s);
  }

  lemma ExampleLineFour(s: string)
    requires s == "move 1 from 1 to 2"
    ensures ShowInstruction(ExampleInsts[3]) == s
  {
    SmallDigitChars();
    ShowSmallInstruction(Instruction(1, 0, 1), '1', '1', '2', s);
  }

  lemma ShowFourInstructions(insts: seq<Instruction>, s0: string, s1: string, s2: string, s3: string)
    requires |insts| == 4
    requires ShowInstruction(insts[0]) == s0 && ShowInstruction(insts[1]) == s1
    requires ShowInstruction(insts[2]) == s2 && ShowInstruction(insts[3]) == s3
    ensures ShowInstructions(insts) == [s0, s1, s2, s3]
  {
  }

  /** The example's lines are its stacks, an empty line and its instructions
      written out. */
  lemma ExampleLayout(shown: seq<string>)
    requires ShowInstructions(ExampleInsts) == shown
    ensures ["ZN", "MCD", "P", ""] + shown == ExampleStacks + [""] + ShowInstructions(ExampleInsts)
  {
  }

  /** The lines of the example text hold no line feed, and the last is not empty. */
  lemma ExampleLinesPlain(ls: seq<string>)
    requires ls == ["ZN", "MCD", "P", "", "move 1 from 2 to 1", "move 3 from 1 to 3", "move 2 from 2 to 1", "move 1 from 1 to 2"]
    ensures |ls| >= 1 && ls[|ls| - 1] != ""
    ensures forall k :: 0 <= k < |ls| ==> '\n' !in ls[k]
  {
  }

  /** The lines of the example text are its stacks, an empty line and its
      instructions written out. */
  lemma ExampleLines(text: string)
    requires text == ExampleText
    ensures Lines(text) == ExampleStacks + [""] + ShowInstructions(ExampleInsts)
  {
    var ls := ["ZN", "MCD", "P", ""] + ["move 1 from 2 to 1", "move 3 from 1 to 3", "move 2 from 2 to 1", "move 1 from 1 to 2"];
    ExampleTextJoin(text, ls);
    ExampleLinesPlain(ls);
    LinesOfJoin(ls);
    ExampleInstructionLines("move 1 from 2 to 1", "move 3 from 1 to 3", "move 2 from 2 to 1", "move 1 from 1 to 2");
  }

  /** The example's instruction lines are its instructions written out. */
  lemma ExampleInstructionLines(s0: string, s1: string, s2: string, s3: string)
    requires s0 == "move 1 from 2 to 1" && s1 == "move 3 from 1 to 3"
    requires s2 == "move 2 from 2 to 1" && s3 == "move 1 from 1 to 2"
    ensures ["ZN", "MCD", "P", ""] + [s0, s1, s2, s3] == ExampleStacks + [""] + ShowInstructions(ExampleInsts)
  {
    ExampleLineOne(s0);
    ExampleLineTwo(s1);
    ExampleLineThree(s2);
    ExampleLineFour(s3);
    ShowFourInstructions(ExampleInsts, s0, s1, s2, s3);
    ExampleLayout([s0, s1, s2, s3]);
  }

  /** `parse_input` on the text of the tests gives the example's stacks and
      instructions. */
  lemma ExampleParse(text: string)
    requires text == ExampleText
    ensures ParseSpec(Lines(text)) == Some(Input(ExampleStacks, ExampleInsts))
  {
    ExampleLines(text);
    ParseSpecOfLayout(ExampleStacks, ExampleInsts);
  }

  /** The test of part 1: the text parses and the tops are "CMZ" ... */
  lemma ExampleFirst(text: string)
    requires text == ExampleText
    ensures ParseSpec(Lines(text)).Some?
    ensures var input := ParseSpec(Lines(text)).value;
            AnswerOf(RunOneAtATime(input.stacks, input.insts)) == Some("CMZ")
  {
    ExampleParse(text);
    ExampleRunFirst();
    TopsOfThree(["C", "M", "PDNZ"]);
  }

  /** ... and "MCD" under part 2. */
  lemma ExampleSecond(text: string)
    requires text == ExampleText
    ensures ParseSpec(Lines(text)).Some?
    ensures var input := ParseSpec(Lines(text)).value;
            AnswerOf(RunBlocks(input.stacks, input.insts)) == Some("MCD")
  {
    ExampleParse(text);
    ExampleRunSecond();
    TopsOfThree(["M", "C", "PZND"]);
  }

  lemma TopsOfThree(stacks: Stacks)
    requires |stacks| == 3 && forall k :: 0 <= k < 3 ==> stacks[k] != []
    ensures Tops(stacks) == Some([stacks[0][|stacks[0]| - 1], stacks[1][|stacks[1]| - 1], stacks[2][|stacks[2]| - 1]])
  {
    assert Tops(stacks).Some?;
    var t := Tops(stacks).value;
    assert |t| == 3 && t[0] == stacks[0][|stacks[0]| - 1] && t[1] == stacks[1][|stacks[1]| - 1]
        && t[2] == stacks[2][|stacks[2]| - 1];
    assert t == [t[0], t[1], t[2]];
  }
}
