/** Day 11: monkeys passing items. Each monkey holds a queue of worry levels.
    On its turn it inspects every item in order: the worry level goes through
    the monkey's operation, then a relief step (division by three in part 1,
    reduction modulo the product of all tests in part 2), and the item is
    thrown to one of two monkeys depending on whether the new level is
    divisible by the monkey's test. The answer is the product of the two
    largest inspection counts.

    The monkeys are objects updated in place by the simulation. Its
    specification works on values: each monkey's fixed `Rule` and its
    changing `MonkeyState`. */
module Day11 {
  import opened Common
  import opened Text

  /** `Operation` */
  datatype Operation = Add(k: nat) | Mul(k: nat) | Square

  /** `Operation::operate` */
  function Operate(op: Operation, num: nat): nat
  {
    match op
    case Add(k) => num + k
    case Mul(k) => num * k
    case Square => num * num
  }

  lemma {:induction false} MulAtLeast(d: nat, m: int)
    requires d >= 1 && m > 0
    ensures d * m >= m
  {
    if d > 1 {
      MulAtLeast(d - 1, m);
      assert d * m == (d - 1) * m + m;
    }
  }

  /** Division with remainder is unique. */
  lemma ModUnique(x: int, q: int, r: int, m: int)
    requires m > 0 && 0 <= r < m && x == q * m + r
    ensures x % m == r && x / m == q
  {
    var q2, r2 := x / m, x % m;
    assert x == q2 * m + r2;
    var d := q - q2;
    assert q * m == d * m + q2 * m;
    assert d * m == r2 - r;
    if d > 0 {
      MulAtLeast(d, m);
    }
  }

  /** Shifting by a multiple of `m` keeps the remainder modulo `m`. */
  lemma ModShift(q: int, m: int, y: int)
    requires m > 0
    ensures (q * m + y) % m == y % m
  {
    var a, b := y / m, y % m;
    assert y == a * m + b;
    assert q * m + y == (q + a) * m + b;
    ModUnique(q * m + y, q + a, b, m);
  }

  lemma MulMod(a: int, k: int, m: int)
    requires m > 0
    ensures (a * k) % m == ((a % m) * k) % m
  {
    var q, r := a / m, a % m;
    assert a == q * m + r;
    assert a * k == (q * m + r) * k;
    assert (q * m + r) * k == (q * k) * m + r * k;
    ModShift(q * k, m, r * k);
  }

  lemma SquareMod(a: int, m: int)
    requires m > 0
    ensures (a * a) % m == ((a % m) * (a % m)) % m
  {
    MulMod(a, a, m);
    MulMod(a, a % m, m);
    assert a * (a % m) == (a % m) * a;
    assert (a % m) % m == a % m by {
      ModUnique(a % m, 0, a % m, m);
    }
  }

  lemma AddMod(a: int, k: int, m: int)
    requires m > 0
    ensures (a + k) % m == ((a % m) + k) % m
  {
    var q, r := a / m, a % m;
    assert a == q * m + r;
    ModShift(q, m, r + k);
  }

  /** The operation commutes with reduction modulo any `m`. */
  lemma OperateMod(op: Operation, a: nat, m: nat)
    requires m > 0
    ensures Operate(op, a) % m == Operate(op, a % m) % m
  {
    match op
    case Add(k) => AddMod(a, k, m);
    case Mul(k) => MulMod(a, k, m);
    case Square => SquareMod(a, m);
  }

  /** Numbers congruent modulo `m` stay congruent through every operation. */
  lemma OperateCongruent(op: Operation, a: nat, b: nat, m: nat)
    requires m > 0 && a % m == b % m
    ensures Operate(op, a) % m == Operate(op, b) % m
  {
    OperateMod(op, a, m);
    OperateMod(op, b, m);
  }

  /** Reduction modulo a multiple of `t` keeps the remainder modulo `t`. */
  lemma ModOfMultiple(v: nat, m: nat, t: nat)
    requires t > 0 && m > 0 && m % t == 0
    ensures (v % m) % t == v % t
  {
    var p := m / t;
    assert m == p * t;
    assert v == (v / m) * m + v % m;
    assert v == ((v / m) * p) * t + v % m;
    ModShift((v / m) * p, t, v % m);
  }

  /** What happens to a worry level after the operation: `/ 3` in part 1 and
      `% modulo` in part 2. `Keep` leaves it alone; the original never does
      that, but it is what part 2's reduction is compared with. */
  datatype Relief = Third | Reduce(modulo: nat) | Keep

  predicate ValidRelief(relief: Relief)
  {
    relief.Reduce? ==> relief.modulo > 0
  }

  function Relieve(relief: Relief, v: nat): (r: nat)
    requires ValidRelief(relief)
    ensures relief.Third? ==> 3 * r <= v < 3 * r + 3
    ensures relief.Reduce? ==> r < relief.modulo
    ensures relief.Keep? ==> r == v
  {
    match relief
    case Third => v / 3
    case Reduce(m) => v % m
    case Keep => v
  }

  /** The fixed part of a monkey: its operation, its divisibility test and the
      two monkeys it throws to. */
  datatype Rule = Rule(op: Operation, test: nat, trueThrow: nat, falseThrow: nat)

  /** The part of a monkey that the simulation changes: its queue of worry
      levels and the number of items it has inspected. */
  datatype MonkeyState = MonkeyState(items: seq<nat>, count: nat)

  /** The new worry level of an item and the monkey it is thrown to. */
  datatype Throw = Throw(value: nat, dest: nat)

  /** `Monkey::inspect`: the relieved new level, thrown to `trueThrow` exactly
      when the test divides it. */
  function Inspect(rule: Rule, item: nat, relief: Relief): (t: Throw)
    requires rule.test > 0 && ValidRelief(relief)
    ensures t.value == Relieve(relief, Operate(rule.op, item))
    ensures t.value % rule.test == 0 ==> t.dest == rule.trueThrow
    ensures t.value % rule.test != 0 ==> t.dest == rule.falseThrow
  {
    var v := Relieve(relief, Operate(rule.op, item));
    Throw(v, if v % rule.test == 0 then rule.trueThrow else rule.falseThrow)
  }

  /** `Monkey::inspect_all`: one throw per held item, in queue order. */
  function InspectAll(rule: Rule, items: seq<nat>, relief: Relief): (r: seq<Throw>)
    requires rule.test > 0 && ValidRelief(relief)
    ensures |r| == |items|
    ensures forall j :: 0 <= j < |r| ==> r[j] == Inspect(rule, items[j], relief)
  {
    seq(|items|, j requires 0 <= j < |items| => Inspect(rule, items[j], relief))
  }

  /** `Monkey::add_items` on a value. */
  function Received(m: MonkeyState, item: nat): MonkeyState
  {
    m.(items := m.items + [item])
  }

  /** `Monkey::reset` on a value. */
  function Emptied(m: MonkeyState): MonkeyState
  {
    MonkeyState([], m.count + |m.items|)
  }

  /** A monkey whose queue and count the simulation updates in place. */
  class Monkey {
    var items: seq<nat>
    var count: nat
    const op: Operation
    const test: nat
    const trueThrow: nat
    const falseThrow: nat

    function Behaviour(): Rule
    {
      Rule(op, test, trueThrow, falseThrow)
    }

    function State(): MonkeyState
      reads this
    {
      MonkeyState(items, count)
    }

    /** `Monkey::new`: nothing inspected yet. */
    constructor (items: seq<nat>, op: Operation, test: nat, trueThrow: nat, falseThrow: nat)
      ensures Behaviour() == Rule(op, test, trueThrow, falseThrow)
      ensures State() == MonkeyState(items, 0)
    {
      this.items := items;
      this.op := op;
      this.test := test;
      this.trueThrow := trueThrow;
      this.falseThrow := falseThrow;
      this.count := 0;
    }

    /** `clone`: a new monkey with the same fields. */
    constructor Copy(other: Monkey)
      ensures Behaviour() == other.Behaviour() && State() == other.State()
    {
      this.items := other.items;
      this.op := other.op;
      this.test := other.test;
      this.trueThrow := other.trueThrow;
      this.falseThrow := other.falseThrow;
      this.count := other.count;
    }

    /** `Monkey::reset`: every held item counts as inspected; the queue empties. */
    method Reset()
      modifies this
      ensures State() == Emptied(old(State()))
      ensures items == [] && count == old(count) + |old(items)|
    {
      count := count + |items|;
      items := [];
    }

    /** `Monkey::add_items`: the item joins the back of the queue. */
    method AddItems(item: nat)
      modifies this
      ensures State() == Received(old(State()), item)
      ensures items == old(items) + [item] && count == old(count)
    {
      items := items + [item];
    }
  }

  /* ------------------------------------------------------------ parsing */

  /** The starting items: the text after the first `": "`, split at `", "`,
      every piece a number. */
  function ParseItems(line: string): Option<seq<nat>>
  {
    var halves := SplitOn(line, ": ");
    if |halves| < 2 then None else MapAll(SplitOn(halves[1], ", "), ParseNat)
  }

  /** The operation from the last two words of its line: `* old` squares,
      `* k` multiplies and `+ k` adds; anything else panics. */
  function ParseOperation(line: string): (r: Option<Operation>)
    ensures r.Some? ==> |Words(line)| >= 2
    ensures r == Some(Square) <==>
      |Words(line)| >= 2 && Words(line)[|Words(line)| - 2..] == ["*", "old"]
    ensures forall k: nat :: r == Some(Mul(k)) <==>
      |Words(line)| >= 2 && Words(line)[|Words(line)| - 2] == "*" && Words(line)[|Words(line)| - 1] != "old" &&
      ParseNat(Words(line)[|Words(line)| - 1]) == Some(k)
    ensures forall k: nat :: r == Some(Add(k)) <==>
      |Words(line)| >= 2 && Words(line)[|Words(line)| - 2] == "+" && ParseNat(Words(line)[|Words(line)| - 1]) == Some(k)
  {
    var ws := Words(line);
    if |ws| < 2 then None
    else
      var operand, operator := ws[|ws| - 1], ws[|ws| - 2];
      assert ws[|ws| - 2..] == [operator, operand];
      if operator == "*" && operand == "old" then Some(Square)
      else if operator == "*" then
        match ParseNat(operand)
        case None => None
        case Some(k) => Some(Mul(k))
      else if operator == "+" then
        match ParseNat(operand)
        case None => None
        case Some(k) => Some(Add(k))
      else None
  }

  /** The number that ends a line: the test and the two throw targets. */
  function ParseLastNat(line: string): (r: Option<nat>)
    ensures r.Some? <==> |Words(line)| > 0 && ParseNat(Words(line)[|Words(line)| - 1]).Some?
  {
    var ws := Words(line);
    if ws == [] then None else ParseNat(ws[|ws| - 1])
  }

  /** A monkey as the parser sees it: its rule and its starting items. */
  datatype Description = Description(rule: Rule, items: seq<nat>)

  /** `Monkey::from_str`: lines 1 to 5 of the block give the items, the
      operation, the test and the two targets; the first line is ignored. A
      block of fewer than six lines, or any line that does not parse, panics. */
  function ParseMonkey(block: string): Option<Description>
  {
    ParseMonkeyLines(Lines(block))
  }

  function ParseMonkeyLines(ls: seq<string>): Option<Description>
  {
    if |ls| < 6 then None
    else
      match (ParseItems(ls[1]), ParseOperation(ls[2]), ParseLastNat(ls[3]), ParseLastNat(ls[4]), ParseLastNat(ls[5]))
      case (Some(items), Some(op), Some(test), Some(t), Some(f)) => Some(Description(Rule(op, test, t, f), items))
      case _ => None
  }

  /** Six lines whose fields all parse make a monkey. */
  lemma ParseMonkeyLinesOf(ls: seq<string>, d: Description)
    requires |ls| >= 6
    requires ParseItems(ls[1]) == Some(d.items) && ParseOperation(ls[2]) == Some(d.rule.op)
    requires ParseLastNat(ls[3]) == Some(d.rule.test)
    requires ParseLastNat(ls[4]) == Some(d.rule.trueThrow) && ParseLastNat(ls[5]) == Some(d.rule.falseThrow)
    ensures ParseMonkeyLines(ls) == Some(d)
  {
  }

  /** `parse_input`: one monkey per block, the blocks separated by a blank
      line (`split("\n\n")`); any bad block panics. */
  function ParseMonkeys(text: string): Option<seq<Description>>
  {
    MapAll(SplitOn(text, "\n\n"), ParseMonkey)
  }

  /* ----------------------------------------------------- parse round trip */

  function ShowNats(ns: seq<nat>): (r: seq<string>)
    ensures |r| == |ns| && forall k :: 0 <= k < |ns| ==> r[k] == ShowNat(ns[k])
  {
    seq(|ns|, k requires 0 <= k < |ns| => ShowNat(ns[k]))
  }

  function ShowOperation(op: Operation): seq<string>
  {
    match op
    case Add(k) => ["+", ShowNat(k)]
    case Mul(k) => ["*", ShowNat(k)]
    case Square => ["*", "old"]
  }

  function Indent(k: nat): string
  {
    seq(k, _ => ' ')
  }

  function OperationWords(op: Operation): seq<string>
  {
    ["Operation:", "new", "=", "old"] + ShowOperation(op)
  }

  function TestWords(test: nat): seq<string>
  {
    ["Test:", "divisible", "by", ShowNat(test)]
  }

  function ThrowWords(outcome: string, target: nat): seq<string>
  {
    ["If", outcome, "throw", "to", "monkey", ShowNat(target)]
  }

  /** The six lines of a monkey's block, as the puzzle writes them. */
  function ShowMonkeyLines(index: nat, d: Description): seq<string>
  {
    ["Monkey " + ShowNat(index) + ":",
     "  Starting items: " + Join(ShowNats(d.items), ", "),
     Indent(2) + Join(OperationWords(d.rule.op), " "),
     Indent(2) + Join(TestWords(d.rule.test), " "),
     Indent(4) + Join(ThrowWords("true:", d.rule.trueThrow), " "),
     Indent(4) + Join(ThrowWords("false:", d.rule.falseThrow), " ")]
  }

  function ShowMonkey(index: nat, d: Description): string
  {
    Join(ShowMonkeyLines(index, d), "\n")
  }

  lemma NumeralAvoids(n: nat, c: char)
    requires !IsDigit(c)
    ensures c !in ShowNat(n)
  {
  }

  /** Leading spaces do not change the words of a line. */
  lemma {:induction false} WordsAfterSpaces(k: nat, s: string)
    ensures Words(Indent(k) + s) == Words(s)
  {
    if k > 0 {
      var t := Indent(k) + s;
      assert t[0] == ' ' && t[1..] == Indent(k - 1) + s;
      WordsAfterSpaces(k - 1, s);
    } else {
      assert Indent(k) + s == s;
    }
  }

  /** An indented line of words written with single spaces: one line, whose
      words are those words. */
  lemma LineOfWords(k: nat, ws: seq<string>)
    requires forall j :: 0 <= j < |ws| ==> IsWord(ws[j], IsWhitespace)
    ensures '\n' !in Indent(k) + Join(ws, " ")
    ensures Words(Indent(k) + Join(ws, " ")) == ws
  {
    WordsAfterSpaces(k, Join(ws, " "));
    FieldsOfJoin(ws, IsWhitespace);
    WordsAvoidLineFeed(ws);
    WordsLineAvoids(k, ws);
  }

  lemma WordsAvoidLineFeed(ws: seq<string>)
    requires forall j :: 0 <= j < |ws| ==> IsWord(ws[j], IsWhitespace)
    ensures forall j :: 0 <= j < |ws| ==> '\n' !in ws[j]
  {
    forall j | 0 <= j < |ws|
      ensures '\n' !in ws[j]
    {
      assert IsWord(ws[j], IsWhitespace);
    }
  }

  lemma NumeralIsWord(n: nat)
    ensures IsWord(ShowNat(n), IsWhitespace)
  {
  }

  lemma ParseShowNats(ns: seq<nat>)
    ensures MapAll(ShowNats(ns), ParseNat) == Some(ns)
  {
    forall k | 0 <= k < |ns|
      ensures ParseNat(ShowNats(ns)[k]) == Some(ns[k])
    {
      ParseShowNat(ns[k]);
    }
    assert MapAll(ShowNats(ns), ParseNat).value == ns;
  }

  lemma ParseShowItems(items: seq<nat>)
    requires |items| > 0
    ensures var line := "  Starting items: " + Join(ShowNats(items), ", ");
      '\n' !in line && ParseItems(line) == Some(items)
  {
    var digits := ShowNats(items);
    var list := Join(digits, ", ");
    forall k | 0 <= k < |digits|
      ensures ',' !in digits[k] && ':' !in digits[k] && '\n' !in digits[k]
    {
      NumeralAvoids(items[k], ',');
      NumeralAvoids(items[k], ':');
      NumeralAvoids(items[k], '\n');
    }
    JoinAvoids(digits, ", ", ':');
    JoinAvoids(digits, ", ", '\n');
    AvoidsLineFeed("  Starting items: ", list);
    assert "  Starting items: " + list == Join(["  Starting items", list], ": ");
    SplitJoin(["  Starting items", list], ": ");
    SplitJoin(digits, ", ");
    ParseShowNats(items);
  }

  lemma ParseShowOperation(op: Operation)
    ensures var line := Indent(2) + Join(OperationWords(op), " ");
      '\n' !in line && ParseOperation(line) == Some(op)
  {
    var ws := OperationWords(op);
    match op {
      case Add(k) => ParseShowNat(k);
      case Mul(k) => ParseShowNat(k);
      case Square =>
    }
    OperationWordsAreWords(op, ws);
    LineOfWords(2, ws);
  }

  lemma OperationWordsAreWords(op: Operation, ws: seq<string>)
    requires ws == OperationWords(op)
    ensures |ws| == 6 && forall j :: 0 <= j < |ws| ==> IsWord(ws[j], IsWhitespace)
  {
    match op {
      case Add(k) => NumeralIsWord(k);
      case Mul(k) => NumeralIsWord(k);
      case Square =>
    }
    PrintableIsWord(ws[0]);
    PrintableIsWord(ws[1]);
    PrintableIsWord(ws[2]);
    PrintableIsWord(ws[3]);
    PrintableIsWord(ws[4]);
  }

  /** Text of spaces and visible ASCII characters, followed by text without a
      line feed, has no line feed. */
  lemma AvoidsLineFeed(head: string, tail: string)
    requires forall i :: 0 <= i < |head| ==> ' ' <= head[i] <= '~'
    requires '\n' !in tail
    ensures '\n' !in head + tail
  {
  }

  /** Visible ASCII characters are not white space. */
  lemma PrintableIsWord(w: string)
    requires w != [] && forall i :: 0 <= i < |w| ==> '!' <= w[i] <= '~'
    ensures IsWord(w, IsWhitespace)
  {
  }

  /** A line of words ending in a number gives back that number. */
  lemma ParseShowLastNat(k: nat, ws: seq<string>, n: nat)
    requires |ws| > 0 && ws[|ws| - 1] == ShowNat(n)
    requires forall j :: 0 <= j < |ws| - 1 ==> IsWord(ws[j], IsWhitespace)
    ensures '\n' !in Indent(k) + Join(ws, " ")
    ensures ParseLastNat(Indent(k) + Join(ws, " ")) == Some(n)
  {
    NumeralIsWord(n);
    LineOfWords(k, ws);
    ParseShowNat(n);
  }

  /** Words free of line feeds make a single line. */
  lemma WordsLineAvoids(k: nat, ws: seq<string>)
    requires forall j :: 0 <= j < |ws| ==> '\n' !in ws[j]
    ensures '\n' !in Indent(k) + Join(ws, " ")
  {
    JoinAvoids(ws, " ", '\n');
  }

  /** No line of a block holds a line feed. */
  lemma ShowMonkeyLinesAvoid(index: nat, d: Description)
    requires |d.items| > 0
    ensures forall k :: 0 <= k < 6 ==> '\n' !in ShowMonkeyLines(index, d)[k]
  {
    HeadLinesAvoid(index, d);
    TailLinesAvoid(index, d);
  }

  lemma TailLinesAvoid(index: nat, d: Description)
    ensures var ls := ShowMonkeyLines(index, d);
      '\n' !in ls[3] && '\n' !in ls[4] && '\n' !in ls[5]
  {
    var ls := ShowMonkeyLines(index, d);
    assert ls[3] == Indent(2) + Join(TestWords(d.rule.test), " ");
    TestLineAvoids(d.rule.test);
    assert ls[4] == Indent(4) + Join(ThrowWords("true:", d.rule.trueThrow), " ");
    ThrowLineAvoids("true:", d.rule.trueThrow);
    assert ls[5] == Indent(4) + Join(ThrowWords("false:", d.rule.falseThrow), " ");
    ThrowLineAvoids("false:", d.rule.falseThrow);
  }

  lemma TestLineAvoids(test: nat)
    ensures '\n' !in Indent(2) + Join(TestWords(test), " ")
  {
    var ws := TestWords(test);
    NumeralAvoids(test, '\n');
    assert '\n' !in ws[0] && '\n' !in ws[1] && '\n' !in ws[2] && '\n' !in ws[3];
    WordsLineAvoids(2, ws);
  }

  lemma ThrowLineAvoids(outcome: string, target: nat)
    requires '\n' !in outcome
    ensures '\n' !in Indent(4) + Join(ThrowWords(outcome, target), " ")
  {
    var ws := ThrowWords(outcome, target);
    NumeralAvoids(target, '\n');
    assert '\n' !in ws[0] && '\n' !in ws[2] && '\n' !in ws[3] && '\n' !in ws[4] && '\n' !in ws[5];
    WordsLineAvoids(4, ws);
  }

  lemma HeadLinesAvoid(index: nat, d: Description)
    requires |d.items| > 0
    ensures var ls := ShowMonkeyLines(index, d);
      '\n' !in ls[0] && '\n' !in ls[1] && '\n' !in ls[2]
  {
    var ls := ShowMonkeyLines(index, d);
    assert ls[0] == "Monkey " + ShowNat(index) + ":";
    NumeralAvoids(index, '\n');
    assert ls[1] == "  Starting items: " + Join(ShowNats(d.items), ", ");
    ParseShowItems(d.items);
    assert ls[2] == Indent(2) + Join(OperationWords(d.rule.op), " ");
    OperationLineAvoids(d.rule.op);
  }

  lemma OperationLineAvoids(op: Operation)
    ensures '\n' !in Indent(2) + Join(OperationWords(op), " ")
  {
    match op {
      case Add(k) => NumeralAvoids(k, '\n');
      case Mul(k) => NumeralAvoids(k, '\n');
      case Square =>
    }
    WordsLineAvoids(2, OperationWords(op));
  }

  lemma LinesOfShowMonkey(index: nat, d: Description)
    requires |d.items| > 0
    ensures Lines(ShowMonkey(index, d)) == ShowMonkeyLines(index, d)
  {
    var ls := ShowMonkeyLines(index, d);
    ShowMonkeyLinesAvoid(index, d);
    assert ls[5] != "";
    LinesOfJoin(ls);
  }

  /** The block's lines give back the items and the operation. */
  lemma ParseShowHead(index: nat, d: Description)
    requires |d.items| > 0
    ensures var ls := ShowMonkeyLines(index, d);
      ParseItems(ls[1]) == Some(d.items) && ParseOperation(ls[2]) == Some(d.rule.op)
  {
    var ls := ShowMonkeyLines(index, d);
    assert ls[1] == "  Starting items: " + Join(ShowNats(d.items), ", ");
    ParseShowItems(d.items);
    assert ls[2] == Indent(2) + Join(OperationWords(d.rule.op), " ");
    ParseShowOperation(d.rule.op);
  }

  lemma ParseShowTest(index: nat, d: Description)
    ensures ParseLastNat(ShowMonkeyLines(index, d)[3]) == Some(d.rule.test)
  {
    ParseShowLastNat(2, TestWords(d.rule.test), d.rule.test);
  }

  lemma ParseShowTrueThrow(index: nat, d: Description)
    ensures ParseLastNat(ShowMonkeyLines(index, d)[4]) == Some(d.rule.trueThrow)
  {
    ParseShowLastNat(4, ThrowWords("true:", d.rule.trueThrow), d.rule.trueThrow);
  }

  lemma ParseShowFalseThrow(index: nat, d: Description)
    ensures ParseLastNat(ShowMonkeyLines(index, d)[5]) == Some(d.rule.falseThrow)
  {
    ParseShowLastNat(4, ThrowWords("false:", d.rule.falseThrow), d.rule.falseThrow);
  }

  /** The parser reads back every monkey written out the way the puzzle
      writes it, as long as it holds at least one item: with none, the
      starting-items list is an empty word, which is not a number. */
  lemma ParseShowMonkey(index: nat, d: Description)
    requires |d.items| > 0
    ensures ParseMonkey(ShowMonkey(index, d)) == Some(d)
  {
    var ls := ShowMonkeyLines(index, d);
    LinesOfShowMonkey(index, d);
    ParseShowHead(index, d);
    ParseShowTest(index, d);
    ParseShowTrueThrow(index, d);
    ParseShowFalseThrow(index, d);
    ParseMonkeyLinesOf(ls, d);
  }

  /* ------------------------------------------------------- the simulation */

  /** Every test is positive and every throw lands on an existing monkey;
      otherwise the original divides by zero or indexes out of range. */
  predicate WellFormed(rules: seq<Rule>)
  {
    forall k :: 0 <= k < |rules| ==>
      rules[k].test > 0 && rules[k].trueThrow < |rules| && rules[k].falseThrow < |rules|
  }

  predicate Lands(ms: seq<MonkeyState>, ts: seq<Throw>)
  {
    forall j :: 0 <= j < |ts| ==> ts[j].dest < |ms|
  }

  /** The values of the throws aimed at monkey `k`, in throwing order. */
  function ValuesTo(ts: seq<Throw>, k: nat): (r: seq<nat>)
    ensures |r| <= |ts|
  {
    if ts == [] then []
    else
      var t := ts[|ts| - 1];
      ValuesTo(ts[..|ts| - 1], k) + (if t.dest == k then [t.value] else [])
  }

  /** One throw: `monkeys[destination].add_items(val)`. */
  function Deliver(ms: seq<MonkeyState>, t: Throw): seq<MonkeyState>
    requires t.dest < |ms|
  {
    ms[t.dest := Received(ms[t.dest], t.value)]
  }

  /** The throws, delivered in order. */
  function DeliverAll(ms: seq<MonkeyState>, ts: seq<Throw>): (r: seq<MonkeyState>)
    requires Lands(ms, ts)
    ensures |r| == |ms|
  {
    if ts == [] then ms
    else Deliver(DeliverAll(ms, ts[..|ts| - 1]), ts[|ts| - 1])
  }

  /** Every monkey's queue grows by the values aimed at it, in order, and no
      count changes. */
  lemma {:induction false} DeliverAllEffect(ms: seq<MonkeyState>, ts: seq<Throw>)
    requires Lands(ms, ts)
    ensures forall k :: 0 <= k < |ms| ==>
      DeliverAll(ms, ts)[k].count == ms[k].count && DeliverAll(ms, ts)[k].items == ms[k].items + ValuesTo(ts, k)
  {
    if ts != [] {
      var t := ts[|ts| - 1];
      DeliverAllEffect(ms, ts[..|ts| - 1]);
      assert forall k :: 0 <= k < |ms| ==> ValuesTo(ts, k) == ValuesTo(ts[..|ts| - 1], k) + (if t.dest == k then [t.value] else []);
    }
  }

  /** The simulation's precondition: well-formed rules, one per monkey. */
  predicate Fits(rules: seq<Rule>, ms: seq<MonkeyState>)
  {
    WellFormed(rules) && |ms| == |rules|
  }

  /** The throws of monkey `i` on its turn. */
  function ThrowsOf(rules: seq<Rule>, ms: seq<MonkeyState>, i: nat, relief: Relief): (ts: seq<Throw>)
    requires Fits(rules, ms) && i < |ms| && ValidRelief(relief)
    ensures Lands(ms, ts)
  {
    InspectAll(rules[i], ms[i].items, relief)
  }

  /** One monkey's turn: it inspects its whole queue, the throws are delivered
      in order, and then its queue is counted and emptied. */
  function Turn(rules: seq<Rule>, ms: seq<MonkeyState>, i: nat, relief: Relief): (r: seq<MonkeyState>)
    requires Fits(rules, ms) && i < |ms| && ValidRelief(relief)
    ensures |r| == |ms|
  {
    var after := DeliverAll(ms, ThrowsOf(rules, ms, i, relief));
    after[i := Emptied(after[i])]
  }

  /** What a turn does: every other monkey's queue grows by the values thrown
      to it, in order; the thrower ends with an empty queue and its count grows
      by what it held. A throw to itself lands in its own queue before the
      reset, so that item is counted a second time and then lost. */
  lemma TurnEffect(rules: seq<Rule>, ms: seq<MonkeyState>, i: nat, relief: Relief)
    requires Fits(rules, ms) && i < |ms| && ValidRelief(relief)
    ensures forall k :: 0 <= k < |ms| && k != i ==>
      Turn(rules, ms, i, relief)[k].count == ms[k].count &&
      Turn(rules, ms, i, relief)[k].items == ms[k].items + ValuesTo(ThrowsOf(rules, ms, i, relief), k)
    ensures Turn(rules, ms, i, relief)[i].items == []
    ensures Turn(rules, ms, i, relief)[i].count ==
      ms[i].count + |ms[i].items| + |ValuesTo(ThrowsOf(rules, ms, i, relief), i)|
  {
    DeliverAllEffect(ms, ThrowsOf(rules, ms, i, relief));
  }

  /** The first `n` turns of a round. */
  function Turns(rules: seq<Rule>, ms: seq<MonkeyState>, n: nat, relief: Relief): (r: seq<MonkeyState>)
    requires Fits(rules, ms) && n <= |ms| && ValidRelief(relief)
    ensures |r| == |ms|
  {
    if n == 0 then ms else Turn(rules, Turns(rules, ms, n - 1, relief), n - 1, relief)
  }

  /** One round: every monkey takes its turn, in index order. */
  function Round(rules: seq<Rule>, ms: seq<MonkeyState>, relief: Relief): (r: seq<MonkeyState>)
    requires Fits(rules, ms) && ValidRelief(relief)
    ensures |r| == |ms|
  {
    Turns(rules, ms, |ms|, relief)
  }

  /** `n` rounds. */
  function Rounds(rules: seq<Rule>, ms: seq<MonkeyState>, relief: Relief, n: nat): (r: seq<MonkeyState>)
    requires Fits(rules, ms) && ValidRelief(relief)
    ensures |r| == |ms|
  {
    if n == 0 then ms else Round(rules, Rounds(rules, ms, relief, n - 1), relief)
  }

  /* --------------------------------------------------------- monotonicity */

  /** No monkey has inspected fewer items in `b` than in `a`. */
  predicate CountsGrow(a: seq<MonkeyState>, b: seq<MonkeyState>)
  {
    |a| == |b| && forall k :: 0 <= k < |a| ==> a[k].count <= b[k].count
  }

  lemma CountsGrowTransitive(a: seq<MonkeyState>, b: seq<MonkeyState>, c: seq<MonkeyState>)
    requires CountsGrow(a, b) && CountsGrow(b, c)
    ensures CountsGrow(a, c)
  {
  }

  lemma TurnCountsGrow(rules: seq<Rule>, ms: seq<MonkeyState>, i: nat, relief: Relief)
    requires Fits(rules, ms) && i < |ms| && ValidRelief(relief)
    ensures CountsGrow(ms, Turn(rules, ms, i, relief))
  {
    TurnEffect(rules, ms, i, relief);
  }

  lemma {:induction false} TurnsCountsGrow(rules: seq<Rule>, ms: seq<MonkeyState>, n: nat, relief: Relief)
    requires Fits(rules, ms) && n <= |ms| && ValidRelief(relief)
    ensures CountsGrow(ms, Turns(rules, ms, n, relief))
  {
    if n > 0 {
      var before := Turns(rules, ms, n - 1, relief);
      TurnsCountsGrow(rules, ms, n - 1, relief);
      var after := Turn(rules, before, n - 1, relief);
      assert E: Turns(rules, ms, n, relief) == after;
      TurnCountsGrow(rules, before, n - 1, relief);
      CountsGrowTransitive(ms, before, after);
    }
  }

  /** Counters never decrease across rounds. */
  lemma {:induction false} RoundsCountsGrow(rules: seq<Rule>, ms: seq<MonkeyState>, relief: Relief, n: nat)
    requires Fits(rules, ms) && ValidRelief(relief)
    ensures CountsGrow(ms, Rounds(rules, ms, relief, n))
  {
    if n > 0 {
      var before := Rounds(rules, ms, relief, n - 1);
      RoundsCountsGrow(rules, ms, relief, n - 1);
      TurnsCountsGrow(rules, before, |before|, relief);
    }
  }

  /* ----------------------------------------------------------- conservation */

  function TotalItems(ms: seq<MonkeyState>): nat
  {
    if ms == [] then 0 else |ms[0].items| + TotalItems(ms[1..])
  }

  function TotalCount(ms: seq<MonkeyState>): nat
  {
    if ms == [] then 0 else ms[0].count + TotalCount(ms[1..])
  }

  lemma {:induction false} TotalsUpdate(ms: seq<MonkeyState>, k: nat, m: MonkeyState)
    requires k < |ms|
    ensures TotalItems(ms[k := m]) + |ms[k].items| == TotalItems(ms) + |m.items|
    ensures TotalCount(ms[k := m]) + ms[k].count == TotalCount(ms) + m.count
  {
    if k > 0 {
      TotalsUpdate(ms[1..], k - 1, m);
      assert ms[k := m][1..] == ms[1..][k - 1 := m];
    }
  }

  /** Delivering throws adds one item per throw and changes no count. */
  lemma {:induction false} DeliverAllTotals(ms: seq<MonkeyState>, ts: seq<Throw>)
    requires Lands(ms, ts)
    ensures TotalItems(DeliverAll(ms, ts)) == TotalItems(ms) + |ts|
    ensures TotalCount(DeliverAll(ms, ts)) == TotalCount(ms)
  {
    if ts != [] {
      var t := ts[|ts| - 1];
      var before := DeliverAll(ms, ts[..|ts| - 1]);
      DeliverAllTotals(ms, ts[..|ts| - 1]);
      TotalsUpdate(before, t.dest, Received(before[t.dest], t.value));
    }
  }

  lemma {:induction false} ValuesToAbsent(ts: seq<Throw>, k: nat)
    requires forall j :: 0 <= j < |ts| ==> ts[j].dest != k
    ensures ValuesTo(ts, k) == []
  {
    if ts != [] {
      ValuesToAbsent(ts[..|ts| - 1], k);
    }
  }

  /** A turn moves the thrower's items out and counts them: held items plus
      counts grow by exactly what the thrower held. When the thrower cannot
      throw to itself, no item is lost and only its count grows. */
  lemma TurnTotals(rules: seq<Rule>, ms: seq<MonkeyState>, i: nat, relief: Relief)
    requires Fits(rules, ms) && i < |ms| && ValidRelief(relief)
    ensures TotalItems(Turn(rules, ms, i, relief)) + TotalCount(Turn(rules, ms, i, relief)) ==
            TotalItems(ms) + TotalCount(ms) + |ms[i].items|
    ensures rules[i].trueThrow != i && rules[i].falseThrow != i ==>
            TotalItems(Turn(rules, ms, i, relief)) == TotalItems(ms) &&
            TotalCount(Turn(rules, ms, i, relief)) == TotalCount(ms) + |ms[i].items|
  {
    var ts := ThrowsOf(rules, ms, i, relief);
    var after := DeliverAll(ms, ts);
    DeliverAllEffect(ms, ts);
    DeliverAllTotals(ms, ts);
    TotalsUpdate(after, i, Emptied(after[i]));
    if rules[i].trueThrow != i && rules[i].falseThrow != i {
      ValuesToAbsent(ts, i);
    }
  }

  /** No monkey throws to itself. */
  predicate NoSelfThrows(rules: seq<Rule>)
  {
    forall k :: 0 <= k < |rules| ==> rules[k].trueThrow != k && rules[k].falseThrow != k
  }

  /** Without self-throws the number of items in play never changes. */
  lemma {:induction false} TurnsConserve(rules: seq<Rule>, ms: seq<MonkeyState>, n: nat, relief: Relief)
    requires Fits(rules, ms) && NoSelfThrows(rules) && n <= |ms| && ValidRelief(relief)
    ensures TotalItems(Turns(rules, ms, n, relief)) == TotalItems(ms)
  {
    if n > 0 {
      TurnsConserve(rules, ms, n - 1, relief);
      TurnTotals(rules, Turns(rules, ms, n - 1, relief), n - 1, relief);
    }
  }

  lemma {:induction false} RoundsConserve(rules: seq<Rule>, ms: seq<MonkeyState>, relief: Relief, n: nat)
    requires Fits(rules, ms) && NoSelfThrows(rules) && ValidRelief(relief)
    ensures TotalItems(Rounds(rules, ms, relief, n)) == TotalItems(ms)
  {
    if n > 0 {
      var before := Rounds(rules, ms, relief, n - 1);
      RoundsConserve(rules, ms, relief, n - 1);
      TurnsConserve(rules, before, |before|, relief);
    }
  }

  /* ------------------------------------------------- part 2's reduction */

  /** Two queues of the same length whose items agree modulo `m`. */
  predicate ItemsCongruent(x: seq<nat>, y: seq<nat>, m: nat)
    requires m > 0
  {
    |x| == |y| && forall j :: 0 <= j < |x| ==> x[j] % m == y[j] % m
  }

  /** The same counts, and queues whose items agree modulo `m`. */
  predicate Congruent(a: seq<MonkeyState>, b: seq<MonkeyState>, m: nat)
    requires m > 0
  {
    |a| == |b| &&
    forall k :: 0 <= k < |a| ==> a[k].count == b[k].count && ItemsCongruent(a[k].items, b[k].items, m)
  }

  /** Every test divides `m`. */
  predicate TestsDivide(rules: seq<Rule>, m: nat)
  {
    forall k :: 0 <= k < |rules| ==> rules[k].test > 0 && m % rules[k].test == 0
  }

  /** Inspecting congruent items with reduction modulo `m` and without any
      relief routes them the same way and gives congruent new levels. */
  lemma InspectCongruent(rule: Rule, x: nat, y: nat, m: nat)
    requires rule.test > 0 && m > 0 && m % rule.test == 0 && x % m == y % m
    ensures Inspect(rule, x, Reduce(m)).dest == Inspect(rule, y, Keep).dest
    ensures Inspect(rule, x, Reduce(m)).value % m == Inspect(rule, y, Keep).value % m
  {
    var u, w := Operate(rule.op, x), Operate(rule.op, y);
    OperateCongruent(rule.op, x, y, m);
    ModUnique(u % m, 0, u % m, m);
    ModOfMultiple(u, m, rule.test);
    ModOfMultiple(w, m, rule.test);
  }

  predicate ThrowsCongruent(ts: seq<Throw>, us: seq<Throw>, m: nat)
    requires m > 0
  {
    |ts| == |us| && forall j :: 0 <= j < |ts| ==> ts[j].dest == us[j].dest && ts[j].value % m == us[j].value % m
  }

  lemma ItemsCongruentAppend(x1: seq<nat>, y1: seq<nat>, x2: seq<nat>, y2: seq<nat>, m: nat)
    requires m > 0 && ItemsCongruent(x1, y1, m) && ItemsCongruent(x2, y2, m)
    ensures ItemsCongruent(x1 + x2, y1 + y2, m)
  {
    forall j | 0 <= j < |x1 + x2|
      ensures (x1 + x2)[j] % m == (y1 + y2)[j] % m
    {
      if j >= |x1| {
        assert (x1 + x2)[j] == x2[j - |x1|] && (y1 + y2)[j] == y2[j - |y1|];
      }
    }
  }

  lemma {:induction false} ValuesToCongruent(ts: seq<Throw>, us: seq<Throw>, k: nat, m: nat)
    requires m > 0 && ThrowsCongruent(ts, us, m)
    ensures ItemsCongruent(ValuesTo(ts, k), ValuesTo(us, k), m)
  {
    if ts != [] {
      var n := |ts|;
      assert ThrowsCongruent(ts[..n - 1], us[..n - 1], m);
      ValuesToCongruent(ts[..n - 1], us[..n - 1], k, m);
      ItemsCongruentAppend(ValuesTo(ts[..n - 1], k), ValuesTo(us[..n - 1], k),
        if ts[n - 1].dest == k then [ts[n - 1].value] else [],
        if us[n - 1].dest == k then [us[n - 1].value] else [], m);
    }
  }

  /** A turn with reduction modulo `m` and the same turn with no relief keep
      congruent monkeys congruent. */
  lemma TurnCongruent(rules: seq<Rule>, a: seq<MonkeyState>, b: seq<MonkeyState>, i: nat, m: nat)
    requires m > 0 && Fits(rules, a) && TestsDivide(rules, m) && Congruent(a, b, m) && i < |a|
    ensures Congruent(Turn(rules, a, i, Reduce(m)), Turn(rules, b, i, Keep), m)
  {
    var ta, tb := ThrowsOf(rules, a, i, Reduce(m)), ThrowsOf(rules, b, i, Keep);
    forall j | 0 <= j < |ta|
      ensures ta[j].dest == tb[j].dest && ta[j].value % m == tb[j].value % m
    {
      InspectCongruent(rules[i], a[i].items[j], b[i].items[j], m);
    }
    TurnEffect(rules, a, i, Reduce(m));
    TurnEffect(rules, b, i, Keep);
    var ra, rb := Turn(rules, a, i, Reduce(m)), Turn(rules, b, i, Keep);
    forall k | 0 <= k < |a|
      ensures ra[k].count == rb[k].count && ItemsCongruent(ra[k].items, rb[k].items, m)
    {
      ValuesToCongruent(ta, tb, k, m);
      if k != i {
        ItemsCongruentAppend(a[k].items, b[k].items, ValuesTo(ta, k), ValuesTo(tb, k), m);
      }
    }
  }

  lemma {:induction false} TurnsCongruent(rules: seq<Rule>, a: seq<MonkeyState>, b: seq<MonkeyState>, n: nat, m: nat)
    requires m > 0 && Fits(rules, a) && TestsDivide(rules, m) && Congruent(a, b, m) && n <= |a|
    ensures Congruent(Turns(rules, a, n, Reduce(m)), Turns(rules, b, n, Keep), m)
  {
    if n > 0 {
      TurnsCongruent(rules, a, b, n - 1, m);
      TurnCongruent(rules, Turns(rules, a, n - 1, Reduce(m)), Turns(rules, b, n - 1, Keep), n - 1, m);
    }
  }

  lemma {:induction false} RoundsCongruent(rules: seq<Rule>, a: seq<MonkeyState>, b: seq<MonkeyState>, n: nat, m: nat)
    requires m > 0 && Fits(rules, a) && TestsDivide(rules, m) && Congruent(a, b, m)
    ensures Congruent(Rounds(rules, a, Reduce(m), n), Rounds(rules, b, Keep, n), m)
  {
    if n > 0 {
      var a1, b1 := Rounds(rules, a, Reduce(m), n - 1), Rounds(rules, b, Keep, n - 1);
      RoundsCongruent(rules, a, b, n - 1, m);
      TurnsCongruent(rules, a1, b1, |a1|, m);
    }
  }

  /** The inspection counts: all that the answer depends on. */
  function Counts(ms: seq<MonkeyState>): (r: seq<int>)
    ensures |r| == |ms| && forall k :: 0 <= k < |ms| ==> r[k] == ms[k].count
  {
    seq(|ms|, k requires 0 <= k < |ms| => ms[k].count)
  }

  /** Part 2's trick is sound: when every test divides `m`, reducing worry
      levels modulo `m` after each operation leaves every inspection count
      exactly as it would be with no relief at all. */
  lemma ReductionKeepsCounts(rules: seq<Rule>, ms: seq<MonkeyState>, m: nat, n: nat)
    requires m > 0 && Fits(rules, ms) && TestsDivide(rules, m)
    ensures Counts(Rounds(rules, ms, Reduce(m), n)) == Counts(Rounds(rules, ms, Keep, n))
  {
    RoundsCongruent(rules, ms, ms, n, m);
  }

  /** The product of all tests: `modulo` in part 2. */
  function TestProduct(rules: seq<Rule>): nat
  {
    if rules == [] then 1 else rules[0].test * TestProduct(rules[1..])
  }

  lemma DividesMultiple(a: int, p: int, t: int)
    requires t > 0 && p % t == 0
    ensures (a * p) % t == 0
  {
    var q := p / t;
    assert p == q * t;
    assert a * p == (a * q) * t;
    ModShift(a * q, t, 0);
  }

  /** When every test is positive, each of them divides their product. */
  lemma {:induction false} TestProductDivisible(rules: seq<Rule>)
    requires forall k :: 0 <= k < |rules| ==> rules[k].test > 0
    ensures TestProduct(rules) > 0 && TestsDivide(rules, TestProduct(rules))
  {
    if rules != [] {
      var rest := rules[1..];
      var p := TestProduct(rest);
      TestProductDivisible(rest);
      MulAtLeast(rules[0].test, p);
      assert TestProduct(rules) == rules[0].test * p;
      DividesMultiple(p, rules[0].test, rules[0].test);
      forall k | 1 <= k < |rules|
        ensures TestProduct(rules) % rules[k].test == 0
      {
        assert rest[k - 1] == rules[k];
        DividesMultiple(rules[0].test, p, rules[k].test);
      }
    }
  }

  /* ----------------------------------------------------------- the answer */

  /** `sort_by_key(count)`, then the product of the last two counts. */
  function MonkeyBusiness(ms: seq<MonkeyState>): int
    requires |ms| >= 2
  {
    TopTwoProduct(Sort(Counts(ms)))
  }

  function TopTwoProduct(s: seq<int>): int
    requires |s| >= 2
  {
    s[|s| - 1] * s[|s| - 2]
  }

  /** The answer, or `None` where `monkeys[n - 2]` panics. */
  function Business(ms: seq<MonkeyState>): (r: Option<int>)
    ensures r.Some? <==> |ms| >= 2
  {
    if |ms| < 2 then None else Some(MonkeyBusiness(ms))
  }

  lemma PairInMultiset(c: seq<int>, a: nat, b: nat)
    requires a < b < |c|
    ensures multiset{c[a], c[b]} <= multiset(c)
  {
    assert c == c[..a] + [c[a]] + c[a + 1..b] + [c[b]] + c[b + 1..];
  }

  lemma MulMonotone(x: int, y: int, xMax: int, yMax: int)
    requires 0 <= x <= xMax && 0 <= y <= yMax
    ensures x * y <= xMax * yMax
  {
    assert x * y <= xMax * y;
    assert xMax * y <= xMax * yMax;
  }

  /** In an ascending sequence of non-negative numbers, no two elements have a
      larger product than the last two. */
  lemma TopTwoBound(s: seq<int>, x: int, y: int)
    requires SortedAsc(s) && |s| >= 2
    requires forall i :: 0 <= i < |s| ==> s[i] >= 0
    requires multiset{x, y} <= multiset(s)
    ensures x * y <= TopTwoProduct(s)
  {
    var n := |s|;
    var hi, lo := s[n - 1], s[n - 2];
    assert x in multiset(s) && y in multiset(s);
    assert x >= 0 && y >= 0;
    AtMostLast(s, x);
    AtMostLast(s, y);
    KthLargest(s, 2, multiset{x, y});
    if x <= lo {
      MulMonotone(x, y, lo, hi);
    } else {
      MulMonotone(y, x, lo, hi);
    }
  }

  /** No two different monkeys have counts with a larger product. */
  lemma MonkeyBusinessMaximal(ms: seq<MonkeyState>, a: nat, b: nat)
    requires a < |ms| && b < |ms| && a != b
    ensures ms[a].count * ms[b].count <= MonkeyBusiness(ms)
  {
    var c := Counts(ms);
    var s := Sort(c);
    SortAscending(c);
    SortPermutes(c);
    if a < b {
      PairInMultiset(c, a, b);
    } else {
      PairInMultiset(c, b, a);
    }
    forall i | 0 <= i < |s|
      ensures s[i] >= 0
    {
      assert s[i] in multiset(c);
    }
    TopTwoBound(s, c[a], c[b]);
  }

  /** The last two elements of a permutation of `c` are two elements of `c`. */
  lemma LastTwoOfPermutation(s: seq<int>, c: seq<int>)
    requires |s| >= 2 && multiset(s) == multiset(c)
    ensures multiset{s[|s| - 1], s[|s| - 2]} <= multiset(c)
  {
    var n := |s|;
    assert s == s[..n - 2] + [s[n - 2], s[n - 1]];
    assert multiset(s) == multiset(s[..n - 2]) + multiset{s[n - 2], s[n - 1]};
  }

  /** The two factors `MonkeyBusiness` multiplies are the counts of two
      different monkeys: together they form a sub-multiset of all the counts. */
  lemma MonkeyBusinessAttained(ms: seq<MonkeyState>)
    requires |ms| >= 2
    ensures var s := Sort(Counts(ms));
      multiset{s[|s| - 1], s[|s| - 2]} <= multiset(Counts(ms))
  {
    var c := Counts(ms);
    var s := Sort(c);
    SortPermutes(c);
    LastTwoOfPermutation(s, c);
  }

  /* ---------------------------------------------- the monkeys as objects */

  /** The fixed part of each monkey, in order. */
  function Rules(ms: seq<Monkey>): (r: seq<Rule>)
    ensures |r| == |ms| && forall k :: 0 <= k < |ms| ==> r[k] == ms[k].Behaviour()
  {
    seq(|ms|, k requires 0 <= k < |ms| => ms[k].Behaviour())
  }

  /** The current queue and count of each monkey, in order. */
  function States(ms: seq<Monkey>): (r: seq<MonkeyState>)
    reads ms
    ensures |r| == |ms| && forall k :: 0 <= k < |ms| ==> r[k] == ms[k].State()
  {
    if ms == [] then [] else States(ms[..|ms| - 1]) + [ms[|ms| - 1].State()]
  }

  /** No monkey object appears twice, so updating one leaves the others alone. */
  predicate Distinct(ms: seq<Monkey>)
  {
    forall a, b :: 0 <= a < b < |ms| ==> ms[a] != ms[b]
  }

  /** `input.to_vec()`: fresh copies of the monkeys, field for field. */
  method Clone(input: seq<Monkey>) returns (ms: seq<Monkey>)
    ensures |ms| == |input| && forall k :: 0 <= k < |ms| ==> fresh(ms[k])
    ensures Distinct(ms)
    ensures Rules(ms) == Rules(input) && States(ms) == States(input)
  {
    ms := [];
    for k := 0 to |input|
      invariant |ms| == k && forall j :: 0 <= j < k ==> fresh(ms[j])
      invariant Distinct(ms)
      invariant forall j :: 0 <= j < k ==>
        ms[j].Behaviour() == input[j].Behaviour() && ms[j].State() == input[j].State()
    {
      var m := new Monkey.Copy(input[k]);
      ms := ms + [m];
    }
  }

  /** The rules of parsed monkeys. */
  function RulesOf(ds: seq<Description>): (r: seq<Rule>)
    ensures |r| == |ds| && forall k :: 0 <= k < |ds| ==> r[k] == ds[k].rule
  {
    seq(|ds|, k requires 0 <= k < |ds| => ds[k].rule)
  }

  /** Parsed monkeys before the first round: their starting items, nothing
      inspected. */
  function StartOf(ds: seq<Description>): (r: seq<MonkeyState>)
    ensures |r| == |ds| && forall k :: 0 <= k < |ds| ==> r[k] == MonkeyState(ds[k].items, 0)
  {
    seq(|ds|, k requires 0 <= k < |ds| => MonkeyState(ds[k].items, 0))
  }

  /** `parse_input`: a new monkey object (`Monkey::new`) per block, or `None`
      where a block does not parse. */
  method ParseInput(text: string) returns (r: Option<seq<Monkey>>)
    ensures r.None? <==> ParseMonkeys(text).None?
    ensures r.Some? ==> Distinct(r.value) && forall k :: 0 <= k < |r.value| ==> fresh(r.value[k])
    ensures r.Some? ==> Rules(r.value) == RulesOf(ParseMonkeys(text).value)
    ensures r.Some? ==> States(r.value) == StartOf(ParseMonkeys(text).value)
  {
    var parsed := ParseMonkeys(text);
    if parsed.None? {
      return None;
    }
    var ms := NewMonkeys(parsed.value);
    r := Some(ms);
  }

  /** `collect` of `Monkey::new` over the parsed blocks. */
  method NewMonkeys(ds: seq<Description>) returns (ms: seq<Monkey>)
    ensures Distinct(ms) && forall k :: 0 <= k < |ms| ==> fresh(ms[k])
    ensures Rules(ms) == RulesOf(ds) && States(ms) == StartOf(ds)
  {
    ms := [];
    for k := 0 to |ds|
      invariant |ms| == k && forall j :: 0 <= j < k ==> fresh(ms[j])
      invariant Distinct(ms)
      invariant forall j :: 0 <= j < k ==>
        ms[j].Behaviour() == ds[j].rule && ms[j].State() == MonkeyState(ds[j].items, 0)
    {
      var rule := ds[k].rule;
      var m := new Monkey(ds[k].items, rule.op, rule.test, rule.trueThrow, rule.falseThrow);
      ms := ms + [m];
    }
  }

  /** One turn of monkey `i` on the objects: its throws are computed from its
      queue, each value is appended to its destination's queue in order, and
      then the thrower is reset. */
  method TakeTurn(ms: seq<Monkey>, i: nat, relief: Relief)
    requires Distinct(ms) && WellFormed(Rules(ms)) && i < |ms| && ValidRelief(relief)
    modifies ms
    ensures States(ms) == Turn(Rules(ms), old(States(ms)), i, relief)
  {
    ghost var rules, start := Rules(ms), States(ms);
    var ts := InspectAll(ms[i].Behaviour(), ms[i].items, relief);
    assert ts == ThrowsOf(rules, start, i, relief) by {
      assert rules[i] == ms[i].Behaviour() && start[i] == ms[i].State();
    }
    DeliverThrows(ms, ts);
    ResetAt(ms, i);
  }

  /** `for (val, destination) in result`: the throws, delivered in order. */
  method DeliverThrows(ms: seq<Monkey>, ts: seq<Throw>)
    requires Distinct(ms) && forall j :: 0 <= j < |ts| ==> ts[j].dest < |ms|
    modifies ms
    ensures |States(ms)| == |ms| && Lands(old(States(ms)), ts)
    ensures States(ms) == DeliverAll(old(States(ms)), ts)
  {
    ghost var start := States(ms);
    for j := 0 to |ts|
      invariant States(ms) == DeliverAll(start, ts[..j])
    {
      DeliverTo(ms, ts[j]);
      assert ts[..j + 1][..j] == ts[..j];
    }
    assert ts[..|ts|] == ts;
  }

  /** `monkeys[destination].add_items(val)` */
  method DeliverTo(ms: seq<Monkey>, t: Throw)
    requires Distinct(ms) && t.dest < |ms|
    modifies ms
    ensures States(ms) == Deliver(old(States(ms)), t)
  {
    ms[t.dest].AddItems(t.value);
  }

  /** `monkeys[i].reset()` */
  method ResetAt(ms: seq<Monkey>, i: nat)
    requires Distinct(ms) && i < |ms|
    modifies ms
    ensures States(ms) == old(States(ms))[i := Emptied(old(States(ms))[i])]
  {
    ms[i].Reset();
  }

  /** One round on the objects: every monkey takes its turn, in index order. */
  method PlayRound(ms: seq<Monkey>, relief: Relief)
    requires Distinct(ms) && WellFormed(Rules(ms)) && ValidRelief(relief)
    modifies ms
    ensures States(ms) == Round(Rules(ms), old(States(ms)), relief)
  {
    ghost var rules, start := Rules(ms), States(ms);
    for i := 0 to |ms|
      invariant States(ms) == Turns(rules, start, i, relief)
    {
      NextTurn(ms, i, relief, start);
    }
  }

  /** Turn `i` of a round that started from `start`. */
  method NextTurn(ms: seq<Monkey>, i: nat, relief: Relief, ghost start: seq<MonkeyState>)
    requires Distinct(ms) && WellFormed(Rules(ms)) && i < |ms| && ValidRelief(relief)
    requires |start| == |ms| && States(ms) == Turns(Rules(ms), start, i, relief)
    modifies ms
    ensures States(ms) == Turns(Rules(ms), start, i + 1, relief)
  {
    TakeTurn(ms, i, relief);
  }

  /** `solve_helper`: the rounds run on a clone, so the input monkeys are left
      as they were; the answer is that of the simulation. */
  method SolveHelper(input: seq<Monkey>, relief: Relief, rounds: nat) returns (r: Option<int>)
    requires WellFormed(Rules(input)) && ValidRelief(relief)
    ensures r == Business(Rounds(Rules(input), States(input), relief, rounds))
  {
    var monkeys := Simulate(input, relief, rounds);
    r := Answer(States(monkeys));
  }

  /** The clone of `solve_helper` after all its rounds; the input monkeys
      themselves are not touched. */
  method Simulate(input: seq<Monkey>, relief: Relief, rounds: nat) returns (monkeys: seq<Monkey>)
    requires WellFormed(Rules(input)) && ValidRelief(relief)
    ensures States(monkeys) == Rounds(Rules(input), States(input), relief, rounds)
  {
    ghost var start := States(input);
    monkeys := Clone(input);
    PlayRounds(monkeys, relief, rounds);
    assert States(input) == start;
  }

  /** The round loop of `solve_helper`. */
  method PlayRounds(ms: seq<Monkey>, relief: Relief, rounds: nat)
    requires Distinct(ms) && WellFormed(Rules(ms)) && ValidRelief(relief)
    modifies ms
    ensures States(ms) == Rounds(Rules(ms), old(States(ms)), relief, rounds)
  {
    ghost var rules, start := Rules(ms), States(ms);
    for k := 0 to rounds
      invariant States(ms) == Rounds(rules, start, relief, k)
    {
      PlayRound(ms, relief);
    }
  }

  /** The end of `solve_helper`: sort by count and multiply the last two
      counts, or `None` where `n - 1` or `n - 2` underflows. */
  method Answer(states: seq<MonkeyState>) returns (r: Option<int>)
    ensures r == Business(states)
  {
    var n := |states|;
    if n < 2 {
      return None;
    }
    var sorted := Sort(Counts(states));
    r := Some(sorted[n - 1] * sorted[n - 2]);
  }

  /** Part 1: 20 rounds, dividing worry levels by three. */
  method SolveFirst(input: seq<Monkey>) returns (r: Option<int>)
    requires WellFormed(Rules(input))
    ensures r == Business(Rounds(Rules(input), States(input), Third, 20))
  {
    r := SolveHelper(input, Third, 20);
  }

  /** Part 2: 10000 rounds, reducing worry levels modulo the product of all
      tests; the counts, and so the answer, are those of the unreduced
      simulation. */
  method SolveSecond(input: seq<Monkey>) returns (r: Option<int>)
    requires WellFormed(Rules(input))
    ensures TestProduct(Rules(input)) > 0
    ensures r == Business(Rounds(Rules(input), States(input), Reduce(TestProduct(Rules(input))), 10000))
    ensures r == Business(Rounds(Rules(input), States(input), Keep, 10000))
  {
    var rules := Rules(input);
    var modulo := TestProduct(rules);
    TestProductDivisible(rules);
    r := SolveHelper(input, Reduce(modulo), 10000);
    ReductionKeepsCounts(rules, States(input), modulo, 10000);
  }
}
