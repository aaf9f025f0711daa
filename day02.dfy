/** Day 2: rock-paper-scissors rounds. Each line names the opponent's shape
    (A, B, C) and a second letter (X, Y, Z). Part 1 reads the letter as the
    shape to play; part 2 reads it as the outcome to reach (lose, draw, win). */
module Day02 {
  import opened Common
  import opened Text

  datatype Shape = Rock | Paper | Scissor

  /** The enum discriminant: Rock = 1, Paper = 2, Scissor = 3. */
  function ShapeValue(s: Shape): (v: int)
    ensures 1 <= v <= 3
  {
    match s
    case Rock => 1
    case Paper => 2
    case Scissor => 3
  }

  /** The shape that beats `s`. */
  function LostTo(s: Shape): (r: Shape)
    ensures r != s
    ensures ShapeValue(r) == ShapeValue(s) % 3 + 1
  {
    match s
    case Rock => Paper
    case Paper => Scissor
    case Scissor => Rock
  }

  /** The shape that `s` beats; undoes `LostTo`. */
  function Beat(s: Shape): (r: Shape)
    ensures r != s && r != LostTo(s)
    ensures LostTo(r) == s
  {
    match s
    case Rock => Scissor
    case Paper => Rock
    case Scissor => Paper
  }

  /** Beating is the inverse of losing to, in both orders. */
  lemma BeatLostToInverse(s: Shape)
    ensures Beat(LostTo(s)) == s
    ensures LostTo(Beat(s)) == s
  {
    match s
    case Rock =>
    case Paper =>
    case Scissor =>
  }

  /** The second column: X = 1, Y = 2, Z = 3. */
  datatype Me = X | Y | Z

  function MeValue(m: Me): (v: int)
    ensures 1 <= v <= 3
  {
    match m
    case X => 1
    case Y => 2
    case Z => 3
  }

  datatype Round = Round(opponent: Shape, me: Me)

  function ParseShape(s: string): Option<Shape>
  {
    if s == "A" then Some(Rock)
    else if s == "B" then Some(Paper)
    else if s == "C" then Some(Scissor)
    else None
  }

  function ParseMe(s: string): Option<Me>
  {
    if s == "X" then Some(X)
    else if s == "Y" then Some(Y)
    else if s == "Z" then Some(Z)
    else None
  }

  /** `Round::from_str`: the first two pieces between single spaces must be a
      letter A/B/C and a letter X/Y/Z; a missing piece or any other text
      panics (`None`). Further pieces are ignored. */
  function ParseRound(line: string): (r: Option<Round>)
    ensures r.Some? <==>
              |SplitOn(line, " ")| >= 2 && ParseShape(SplitOn(line, " ")[0]).Some?
              && ParseMe(SplitOn(line, " ")[1]).Some?
  {
    var pieces := SplitOn(line, " ");
    if |pieces| < 2 then None
    else
      match ParseShape(pieces[0])
      case None => None
      case Some(opponent) =>
        match ParseMe(pieces[1])
        case None => None
        case Some(me) => Some(Round(opponent, me))
  }

  /** Writing a round as two letters and a space reads back as that round. */
  lemma ParseRoundOfLetters(r: Round)
    ensures ParseRound(ShapeLetter(r.opponent) + " " + MeLetter(r.me)) == Some(r)
  {
    var line := ShapeLetter(r.opponent) + " " + MeLetter(r.me);
    SplitJoin([ShapeLetter(r.opponent), MeLetter(r.me)], " ");
    assert Join([ShapeLetter(r.opponent), MeLetter(r.me)], [' ']) == line;
    assert " " == [' '];
  }

  function ShapeLetter(s: Shape): string
  {
    match s
    case Rock => "A"
    case Paper => "B"
    case Scissor => "C"
  }

  function MeLetter(m: Me): string
  {
    match m
    case X => "X"
    case Y => "Y"
    case Z => "Z"
  }

  /** `parse_input`: every line must parse as a round. */
  function ParseRounds(lines: seq<string>): (r: Option<seq<Round>>)
    ensures r.Some? ==> |r.value| == |lines|
    ensures r.Some? ==> forall i :: 0 <= i < |lines| ==> ParseRound(lines[i]) == Some(r.value[i])
    ensures r.None? ==> exists i :: 0 <= i < |lines| && ParseRound(lines[i]).None?
  {
    if lines == [] then Some([])
    else
      match ParseRound(lines[0])
      case None => None
      case Some(round) =>
        match ParseRounds(lines[1..])
        case None => None
        case Some(rest) => Some([round] + rest)
  }

  function ParseInput(text: string): Option<seq<Round>>
  {
    ParseRounds(Lines(text))
  }

  /** Part 1 reads the second letter as a shape: X rock, Y paper, Z scissor. */
  function PlayedShape(m: Me): (s: Shape)
    ensures ShapeValue(s) == MeValue(m)
  {
    match m
    case X => Rock
    case Y => Paper
    case Z => Scissor
  }

  /** The points a played shape earns against the opponent's: 6 for a win
      (the played shape beats the opponent's), 3 for a draw, 0 for a loss. */
  function Outcome(mine: Shape, opponent: Shape): int
  {
    if Beat(mine) == opponent then 6
    else if mine == opponent then 3
    else 0
  }

  /** `score_pt1`: the second letter's value plus 3, 6 or 0 as
      `(me - opponent).rem_euclid(3)` is 0, 1 or 2; the panic arm is dead. */
  function ScorePt1(r: Round): (score: int)
    ensures 1 <= score <= 9
  {
    var d := (MeValue(r.me) - ShapeValue(r.opponent)) % 3;
    var roundScore := if d == 0 then 3 else if d == 1 then 6 else assert d == 2; 0;
    MeValue(r.me) + roundScore
  }

  /** Part 1's arithmetic scores a round exactly as the rules of the game do. */
  lemma ScorePt1IsGame(r: Round)
    ensures ScorePt1(r) == ShapeValue(PlayedShape(r.me)) + Outcome(PlayedShape(r.me), r.opponent)
  {
    match r.me {
      case X => match r.opponent { case Rock => case Paper => case Scissor => }
      case Y => match r.opponent { case Rock => case Paper => case Scissor => }
      case Z => match r.opponent { case Rock => case Paper => case Scissor => }
    }
  }

  /** The shape part 2 plays: the one the opponent beats for X, the opponent's
      own for Y, the one that beats the opponent for Z. */
  function ChosenShape(r: Round): (s: Shape)
    ensures r.me == X ==> Outcome(s, r.opponent) == 0
    ensures r.me == Y ==> Outcome(s, r.opponent) == 3
    ensures r.me == Z ==> Outcome(s, r.opponent) == 6
  {
    match r.me
    case X => Beat(r.opponent)
    case Y => r.opponent
    case Z => LostTo(r.opponent)
  }

  /** `score_pt2`: the chosen shape's value plus 0, 3 or 6 for X, Y, Z. */
  function ScorePt2(r: Round): (score: int)
    ensures 1 <= score <= 9
  {
    var myShapeScore := match r.me
      case X => ShapeValue(Beat(r.opponent))
      case Y => ShapeValue(r.opponent)
      case Z => ShapeValue(LostTo(r.opponent));
    var myResultScore := match r.me
      case X => 0
      case Y => 3
      case Z => 6;
    myShapeScore + myResultScore
  }

  /** Part 2 loses, draws or wins as its letter asks: its score is the game's
      score for the chosen shape, and the outcome is 0, 3 or 6 for X, Y, Z. */
  lemma ScorePt2IsGame(r: Round)
    ensures ScorePt2(r) == ShapeValue(ChosenShape(r)) + Outcome(ChosenShape(r), r.opponent)
    ensures Outcome(ChosenShape(r), r.opponent) == 3 * (MeValue(r.me) - 1)
  {
    match r.me {
      case X => match r.opponent { case Rock => case Paper => case Scissor => }
      case Y =>
      case Z => match r.opponent { case Rock => case Paper => case Scissor => }
    }
  }

  /** `solve_first`: the total part-1 score, between 1 and 9 per round. */
  function SolveFirst(rounds: seq<Round>): (total: int)
    ensures |rounds| <= total <= 9 * |rounds|
  {
    if rounds == [] then 0 else ScorePt1(rounds[0]) + SolveFirst(rounds[1..])
  }

  /** `solve_second`: the total part-2 score, between 1 and 9 per round. */
  function SolveSecond(rounds: seq<Round>): (total: int)
    ensures |rounds| <= total <= 9 * |rounds|
  {
    if rounds == [] then 0 else ScorePt2(rounds[0]) + SolveSecond(rounds[1..])
  }

  lemma ExampleLines()
    ensures Lines("A Y\nB X\nC Z") == ["A Y", "B X", "C Z"]
  {
    SplitJoin(["A Y", "B X", "C Z"], "\n");
    assert Join(["A Y", "B X", "C Z"], ['\n']) == "A Y\nB X\nC Z";
    assert "\n" == ['\n'];
  }

  lemma ParseRoundsCons(line: string, lines: seq<string>, round: Round, rounds: seq<Round>)
    requires ParseRound(line) == Some(round)
    requires ParseRounds(lines) == Some(rounds)
    ensures ParseRounds([line] + lines) == Some([round] + rounds)
  {
    assert ([line] + lines)[0] == line;
    assert ([line] + lines)[1..] == lines;
  }

  lemma ExampleRounds()
    ensures ParseRounds(["A Y", "B X", "C Z"]) == Some([Round(Rock, Y), Round(Paper, X), Round(Scissor, Z)])
  {
    ExampleRoundLines();
    ParseRoundsCons("C Z", [], Round(Scissor, Z), []);
    assert ["C Z"] + [] == ["C Z"];
    assert [Round(Scissor, Z)] + [] == [Round(Scissor, Z)];
    ParseRoundsCons("B X", ["C Z"], Round(Paper, X), [Round(Scissor, Z)]);
    assert ["B X"] + ["C Z"] == ["B X", "C Z"];
    assert [Round(Paper, X)] + [Round(Scissor, Z)] == [Round(Paper, X), Round(Scissor, Z)];
    ParseRoundsCons("A Y", ["B X", "C Z"], Round(Rock, Y), [Round(Paper, X), Round(Scissor, Z)]);
    assert ["A Y"] + ["B X", "C Z"] == ["A Y", "B X", "C Z"];
    assert [Round(Rock, Y)] + [Round(Paper, X), Round(Scissor, Z)]
        == [Round(Rock, Y), Round(Paper, X), Round(Scissor, Z)];
  }

  lemma ExampleRoundLines()
    ensures ParseRound("A Y") == Some(Round(Rock, Y))
    ensures ParseRound("B X") == Some(Round(Paper, X))
    ensures ParseRound("C Z") == Some(Round(Scissor, Z))
  {
    RoundLine("A Y", Round(Rock, Y));
    RoundLine("B X", Round(Paper, X));
    RoundLine("C Z", Round(Scissor, Z));
  }

  lemma RoundLine(line: string, r: Round)
    requires line == ShapeLetter(r.opponent) + " " + MeLetter(r.me)
    ensures ParseRound(line) == Some(r)
  {
    ParseRoundOfLetters(r);
  }

  /** The example strategy guide parses into three rounds ... */
  lemma ExampleParse()
    ensures ParseInput("A Y\nB X\nC Z") == Some([Round(Rock, Y), Round(Paper, X), Round(Scissor, Z)])
  {
    ExampleLines();
    ExampleRounds();
  }

  /** ... that score 15 and 12. */
  lemma ExampleScores()
    ensures SolveFirst([Round(Rock, Y), Round(Paper, X), Round(Scissor, Z)]) == 15
    ensures SolveSecond([Round(Rock, Y), Round(Paper, X), Round(Scissor, Z)]) == 12
  {
  }
}
