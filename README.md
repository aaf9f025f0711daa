# Advent of Code 2022, days 1 to 11, in Dafny

This project models the solvers for the first eleven puzzles of Advent of Code
2022. Each day is one Dafny module (`Day01` … `Day11`). Every module has the
day's input parser (`parse_input`), its two answers (`solve_first`,
`solve_second`) and the helper types and methods they use. Properties of each
are proved. Two shared modules carry the library behaviour the solvers rely on:

- `Common` covers `Option` for results the original aborts with a panic, sums,
  the maximum, sorting, the k-th largest element and `chunks`.
- `Text` covers `split`, `lines`, `split_whitespace`, `split_ascii_whitespace`,
  and `parse` of integers, with the rendering that each parser reads back.

How the days are modelled:

- Code built from iterator chains and matches becomes functions on values.
- Code that updates state step by step keeps that form:
  - day 5 moves crates on an `array` of stacks with `while` loops;
  - day 7 builds its directory `Arena` as a class;
  - day 10 runs the CPU in loops;
  - day 11's `Monkey` is a class whose `items` and `count` fields the rounds
    update in place.
- Each such method is proved equal to a specification function, and the
  lemmas are stated about those functions.
- A panic on bad input (`unwrap` of a failed parse, index out of range, `usize`
  underflow) is modelled as `None`.

What is proved, day by day:

- **Day 1:** the group totals are read back from the text. Part 1 is the largest
  total. Part 2 is the sum of three totals of different groups that no other
  three groups exceed.
- **Day 2:**
  - `beat` and `lost_to` are inverse to each other.
  - Both scorings are the value of the shape played plus the outcome.
  - Part 2 picks the shape that gives the outcome its letter asks for.
  - Parsing reads back every round.
  - The example totals 15 and 12.
- **Day 3:**
  - Priorities are 1–26 and 27–52, and distinct letters have distinct
    priorities.
  - The items counted are exactly those common to both halves (part 1), or to
    every elf of a group (part 2), each counted once.
  - The order of the compartments or of the elves does not matter.
- **Day 4:** `contains` means every section of the second range is in the
  first, and `overlaps` means some section is shared. Part 1 never exceeds
  part 2. Parsing reads back `a-b,c-d`. A line with a single range parses,
  and both parts then answer `None`, where the original panics on `v[1]`.
- **Day 5:**
  - One-at-a-time moves reverse the moved block and `split_off`/`append`
    keeps its order.
  - Both move exactly the crates named and conserve the total.
  - The in-place array methods agree with the functions.
  - The text of the tests parses, and gives `CMZ` and `MCD`.
- **Day 6:** the answer is the end of the first window of distinct bytes. The
  example gives 5 and 23.
- **Day 7:**
  - The arena methods replay the terminal session.
  - Creating a directory changes no directory size.
  - Adding a file grows its directory by its size.
  - Part 1 counts every directory of at most 100000.
  - Part 2 is the smallest directory large enough to free the space needed.
  - On the example directory tree, the answers are 95437 and 24933642.
- **Day 8:**
  - Each visibility count is the run of shorter trees in its direction.
  - A tree is visible exactly when a whole line to the edge is shorter.
  - The corrected counts in part 2 are the viewing distances.
  - Parts 1 and 2 are the count and the maximum of these.
  - The text of the tests parses, and gives 21 and 8.
- **Day 9:**
  - After each step, a following knot ends up touching the knot it follows.
  - Every knot moves by at most one square per step.
  - The head's positions are the prefix sums of the unit steps.
  - On the puzzle's example the answers are 13 and 1.
- **Day 10:**
  - The loop of part 1 equals the sum of the signal strengths at cycles 20, 60,
    …, 220 that the program reaches, including when it stops early.
  - The screen of part 2 holds one pixel per cycle, cut into at most six rows
    of 40 joined by line feeds.
- **Day 11:**
  - Inspection counts only grow.
  - Items are conserved when no monkey throws to itself.
  - Reducing worry modulo the product of the tests gives the same inspection
    counts as never reducing it. This is why part 2 is correct.
  - The answer is the largest product of two counts.
  - Parsing reads back a monkey's description.
  - On the example, 20 rounds of part 1 give 10605, and the first round of
    part 2 matches the unreduced round.

The test of day 9's part 2 expects 36, but the code is right (see
"## Findings").

## Model

| member | source | states |
|---|---|---|
| Common.MapAll | src/day11.rs:52-58 | collecting `unwrap`ped parses succeeds exactly when every element parses, and then holds each element's value in order |
| Common.Max | src/day1.rs:26 | `max().unwrap()` on a non-empty list is one of its elements and no element exceeds it |
| Common.SortPermutes | src/day11.rs:149 | sorting keeps the same elements with the same multiplicities (a permutation) |
| Common.SortAscending | src/day11.rs:149 | the sorted list is ascending |
| Common.KthLargest | src/day1.rs:30-31 | among any k elements (with multiplicity) at least one is no larger than the k-th largest, so popping a max-heap k times takes the k largest |
| Common.Chunks | src/day10.rs:83 | `chunks(n)`: every chunk holds 1 to n elements, all but the last exactly n, and there are just enough chunks to hold the input |
| Common.ChunkAt | src/day3.rs:46 | element j of chunk k is element k*n+j of the input |
| Common.ChunksConcat | src/day10.rs:83-87 | the chunks, concatenated, give back the input |
| Text.SplitOn | src/day1.rs:20 | `split` always yields at least one piece |
| Text.JoinSplit | src/day1.rs:20-21 | the pieces of `split`, joined with the separator, give back the text |
| Text.SplitJoin | src/day11.rs:167 | splitting pieces joined by a separator that starts with a character no piece contains gives back the pieces |
| Text.Fields | src/day5.rs:41 | the pieces of `split_whitespace` / `split_ascii_whitespace` are non-empty and contain no whitespace |
| Text.FieldsOfJoin | src/day10.rs:11 | words joined by single spaces split back into the same words |
| Text.ParseShowNat | src/day5.rs:42 | `parse::<usize>` reads back every decimal numeral |
| Text.ParseShowInt | src/day1.rs:21 | `parse::<i64>` reads back every signed decimal numeral |
| Text.LinesOfJoin | src/day5.rs:34 | `lines()` of lines joined by line feeds, the last one not empty, gives back those lines |
| Text.LinesOfTerminated | src/day8.rs:65-66 | `lines()` of lines each ended by a line feed gives back those lines, with no empty line after the last |
| Day01.ParseInputGroups | src/day1.rs:16-23 | there is one total per piece between blank lines, at least one, and the pieces joined with blank lines give back the text |
| Day01.LineValuesOfRender | src/day1.rs:21 | lines written from numbers parse back to those numbers |
| Day01.GroupSumOfNumbers | src/day1.rs:21 | a group of numbers, one per line, totals their sum |
| Day01.SolveFirst | src/day1.rs:25-27 | part 1 is some group's total and no group's total exceeds it |
| Day01.SolveSecond | src/day1.rs:29-32 | part 2 answers exactly when there are at least three groups; with fewer, a `pop().unwrap()` panics |
| Day01.SolveSecondAttained | src/day1.rs:29-32 | part 2 is the sum of the totals of three different groups |
| Day01.SolveSecondMaximal | src/day1.rs:29-32 | no three different groups total more than part 2 |
| Day01.TopThreeTotalAgrees | src/day1.rs:29-32 | the corrected part 2 (the three largest totals, or all of them when fewer) agrees with the original whenever that answers |
| Day01.EmptyInput | src/day1.rs:39-53 | empty input holds one group totalling 0: part 1 is 0, part 2 as written panics, and the corrected part 2 is 0 |
| Day02.ShapeValue | src/day2.rs:7-11 | a shape's value is 1, 2 or 3 |
| Day02.LostTo | src/day2.rs:14-20 | the shape a shape loses to is a different one, the next in value cyclically |
| Day02.Beat | src/day2.rs:22-28 | the shape a shape beats is the third one, and that shape loses to the first |
| Day02.BeatLostToInverse | src/day2.rs:14-28 | `beat` and `lost_to` undo each other |
| Day02.ParseRound | src/day2.rs:45-62 | a round parses exactly when its first two space-separated pieces are a known opponent letter and a known own letter |
| Day02.ParseRoundOfLetters | src/day2.rs:45-62 | every round, written as its two letters, parses back to itself |
| Day02.ParseRounds | src/day2.rs:101-104 | the rounds are parsed line by line, and parsing fails exactly when some line fails |
| Day02.PlayedShape | src/day2.rs:72 | in part 1 the letter's value is the value of the shape played |
| Day02.ScorePt1IsGame | src/day2.rs:64-73 | the `rem_euclid` scoring of part 1 equals the value of the shape played plus 0, 3 or 6 for losing, drawing or winning |
| Day02.ChosenShape | src/day2.rs:76-80 | in part 2 X, Y and Z choose the shape that loses, draws and wins against the opponent |
| Day02.ScorePt2IsGame | src/day2.rs:75-89 | part 2 scores the chosen shape plus the outcome its letter asks for |
| Day02.SolveFirst | src/day2.rs:106-108 | part 1 totals between 1 and 9 points per round |
| Day02.SolveSecond | src/day2.rs:110-112 | part 2 totals between 1 and 9 points per round |
| Day02.ExampleParse | src/day2.rs:139-142 | the example text parses to its three rounds |
| Day02.ExampleScores | src/day2.rs:144-155 | the example totals 15 in part 1 and 12 in part 2 |
| Day03.Priority | src/day3.rs:9-15 | lower-case letters have priorities 1–26, upper-case 27–52 |
| Day03.PriorityInjectiveOnLetters | src/day3.rs:9-15 | different letters have different priorities |
| Day03.Kinds | src/day3.rs:19-20 | collecting into a `HashSet` keeps each item once, and exactly the items present |
| Day03.Intersect | src/day3.rs:21-22 | the intersection holds each item common to both sets once |
| Day03.CommonItemsOfLine | src/day3.rs:17-25 | part 1 adds, once each, the priorities of exactly the items found in both halves |
| Day03.CommonItemsCommute | src/day3.rs:21-22 | the result does not depend on which half is intersected with which |
| Day03.GroupCommon | src/day3.rs:48-52 | the `reduce` over a group gives each item common to all its elves once |
| Day03.GroupCommonOrder | src/day3.rs:44-58 | the badge priority does not depend on the order of the elves in a group |
| Day03.EmptyInput | src/day3.rs:65-79 | no rucksacks give 0 for both parts |
| Day04.ContainsMeansSubset | src/day4.rs:7-12 | `contains` holds exactly when every section of the second range is in the first |
| Day04.OverlapsMeansSharedSection | src/day4.rs:14-19 | `overlaps` holds exactly when the ranges share a section |
| Day04.OverlapsSymmetric | src/day4.rs:14-19 | overlapping does not depend on the order of the ranges |
| Day04.ContainsImpliesOverlaps | src/day4.rs:7-19 | a range that contains a non-empty range overlaps it |
| Day04.ParseRange | src/day4.rs:39-42 | a parsed range has its start and end read from the two pieces around `-` |
| Day04.ParseLines | src/day4.rs:32-47 | lines are parsed one by one, and parsing fails exactly when a line fails |
| Day04.ParsePairLine | src/day4.rs:36-45 | `a-b,c-d` parses back to the two ranges |
| Day04.ParseSingleRangeLine | src/day4.rs:36-45 | a line with one range `a-b` parses to that single range |
| Day04.SolveFirst | src/day4.rs:49-54 | part 1 answers exactly when every line has two ranges (else `v[1]` panics); it counts at most every pair, all of them exactly when in every pair one range contains the other, and none exactly when no pair does |
| Day04.SolveSecond | src/day4.rs:56-58 | part 2 answers exactly when every line has two ranges; it counts at most every pair, all of them exactly when every pair overlaps, and none exactly when no pair does |
| Day04.SolveFirstAtMostSecond | src/day4.rs:49-58 | with two non-empty ranges per line both parts answer, and part 1 never exceeds part 2 |
| Day04.EmptyInput | src/day4.rs:65-79 | empty input parses to no pairs, and both parts are 0 |
| Day05.ParseInstruction | src/day5.rs:41-46 | an instruction parses only from a line of at least six words |
| Day05.ParseShowInstruction | src/day5.rs:41-46 | `move n from a to b` parses back to its instruction, stack numbers counted from 1 |
| Day05.ParseInstructionsAll | src/day5.rs:35-48 | the instruction lines are read exactly when every non-empty one parses |
| Day05.ParseInput | src/day5.rs:26-52 | the loop equals the specification: stack lines until the first empty line, then instructions, with a failed parse or a stack number 0 giving `None` |
| Day05.MoveOne | src/day5.rs:59-60 | moving one crate succeeds exactly when both stacks exist and the source is not empty, conserves crates and changes no other stack |
| Day05.MoveCrates | src/day5.rs:58-61 | moving `count` crates one at a time conserves crates and changes no other stack |
| Day05.MoveCratesReverses | src/day5.rs:58-61 | between different stacks, one-at-a-time moves succeed exactly when the source has enough crates, and they put the top block on the target reversed |
| Day05.MoveCratesOntoItself | src/day5.rs:58-61 | moving crates from a stack onto itself changes nothing |
| Day05.MoveBlock | src/day5.rs:74-76 | `split_off`/`append` succeeds exactly when the stacks exist and the source has enough crates, conserves crates and changes no other stack |
| Day05.OneAtATimeVersusBlock | src/day5.rs:56-76 | both ways fail together; the block lands in order in part 2 and reversed in part 1, leaving the same source |
| Day05.MoveBlockOntoItself | src/day5.rs:74-76 | moving a block from a stack onto itself changes nothing |
| Day05.RunOneAtATime | src/day5.rs:56-62 | the part 1 moves keep the number of stacks and the number of crates |
| Day05.RunBlocks | src/day5.rs:72-77 | the part 2 moves keep the number of stacks and the number of crates |
| Day05.Tops | src/day5.rs:64-67 | the answer exists exactly when no stack is empty, and lists each stack's top crate in order |
| Day05.SolveFirst | src/day5.rs:54-68 | the in-place loops give the tops after the one-at-a-time moves, or `None` where the original panics |
| Day05.MoveCratesInPlace | src/day5.rs:58-61 | the `pop`/`push` loop on the array succeeds exactly when the specification does, and leaves the stacks it gives |
| Day05.SolveSecond | src/day5.rs:70-83 | the in-place block moves give the tops after the block moves, or `None` where the original panics |
| Day05.ParseShowInstructions | src/day5.rs:35-48 | instruction lines written out are read back as those instructions |
| Day05.ParseSpecOfLayout | src/day5.rs:26-52 | stack lines, an empty line and instruction lines parse to those stacks and instructions |
| Day05.ExampleParse | src/day5.rs:90-102 | the text of the tests parses to the stacks `ZN`, `MCD`, `P` and the four moves |
| Day05.ExampleFirst | src/day5.rs:90-104 | the text of the tests parses, and part 1 on it gives `CMZ` |
| Day05.ExampleSecond | src/day5.rs:90-111 | the text of the tests parses, and part 2 on it gives `MCD` |
| Day06.ElemsSize | src/day6.rs:15 | a window's set of bytes is as large as the window exactly when no byte repeats |
| Day06.Solve | src/day6.rs:10-19 | the answer is at least the window size |
| Day06.LeadingRepeatsStop | src/day6.rs:13-17 | `take_while` counts windows that all repeat a byte and stops at the first that does not |
| Day06.FirstMarker | src/day6.rs:10-19 | when the first window of distinct bytes starts at `start`, the answer is `start + w` |
| Day06.MarkerBound | src/day6.rs:10-19 | any window of distinct bytes bounds the answer by its end |
| Day06.NoMarker | src/day6.rs:10-19 | without such a window the answer is the length plus one, or `w` for a stream shorter than one window |
| Day06.ExampleFirst | src/day6.rs:51-58 | the example stream answers 5 with windows of 4 |
| Day06.ExampleSecond | src/day6.rs:51-65 | the example stream answers 23 with windows of 14 |
| Day07.Lookup | src/day7.rs:36-38 | a name is found exactly when the map has an entry for it, and the entry is returned |
| Day07.Insert | src/day7.rs:28-34 | after `insert` the name maps to the new value, other names are unchanged, and a new name is appended |
| Day07.InsertTotal | src/day7.rs:28-30 | inserting a file replaces its old size in the directory's total |
| Day07.Dir.AddFile | src/day7.rs:28-30 | `add_file` records the file's size and changes no other entry |
| Day07.Dir.AddDir | src/day7.rs:32-34 | `add_dir` records the child's index and changes no other entry |
| Day07.Dir.GetDir | src/day7.rs:36-38 | `get_dir` finds a child exactly when one of that name was added |
| Day07.NewDir | src/day7.rs:20-26 | a new directory has its parent and no entries |
| Day07.ChildNoLarger | src/day7.rs:79-83 | a child directory is created after its parent and is no larger than it |
| Day07.AddDirTo | src/day7.rs:73-77 | `add_dir` appends a new empty directory and links it from the current one, leaving every other directory alone |
| Day07.AddFileTo | src/day7.rs:69-71 | `add_file` changes only the current directory |
| Day07.AddDirKeepsSize | src/day7.rs:73-83 | adding a new empty child directory changes no directory's size |
| Day07.AddFileSize | src/day7.rs:69-83 | adding a file grows the current directory by its size, replacing an older file of that name, and leaves later directories alone |
| Day07.ParseCommand | src/day7.rs:109-125 | a blank line is rejected, and a file line carries the size its first word parses to |
| Day07.Step | src/day7.rs:110-125 | a command keeps the tree well formed, and fails only on `cd` to a child that does not exist |
| Day07.Replay | src/day7.rs:105-126 | replaying a session keeps the tree well formed and never removes directories |
| Day07.Arena.constructor | src/day7.rs:47-53 | a new arena holds only the root and stands at it |
| Day07.Arena.MoveToRoot | src/day7.rs:55-57 | `cd /` moves to the root and changes no directory |
| Day07.Arena.MoveToParent | src/day7.rs:59-62 | `cd ..` moves to the parent, which stays at the root or lies before the current directory |
| Day07.Arena.MoveToChild | src/day7.rs:64-67 | `cd name` succeeds exactly when the child exists, and moves to it |
| Day07.Arena.AddFile | src/day7.rs:69-71 | the arena's directories change as `AddFileTo` says |
| Day07.Arena.AddDir | src/day7.rs:73-77 | the arena's directories change as `AddDirTo` says |
| Day07.ParseInput | src/day7.rs:101-129 | the loop over the lines builds exactly the arena the session replay gives, or `None` where the original panics |
| Day07.SmallDirectoryCounted | src/day7.rs:131-137 | every directory of at most 100000 contributes to part 1 |
| Day07.SolveFirst | src/day7.rs:131-137 | part 1 is at most 100000 per directory |
| Day07.MinAtLeast | src/day7.rs:144-149 | the `min` of the sizes that reach the need is such a size, and none is smaller |
| Day07.SolveSecond | src/day7.rs:139-150 | part 2 answers exactly when the disk holds at least 40000000. It is then the size of some directory, deleting it frees enough, and no directory that frees enough is smaller |
| Day07.ExampleAnswers | src/day7.rs:157-194 | the example tree answers 95437 and 24933642 |
| Day08.Run | src/day8.rs:18-31 | `take_while(shorter).count()` is the length of the leading run of shorter trees |
| Day08.LeftCount | src/day8.rs:18-21 | the left count covers trees shorter than this one, stopping at a tree at least as tall or at the edge |
| Day08.RightCount | src/day8.rs:22-24 | the same to the right |
| Day08.UpCount | src/day8.rs:25-28 | the same upward |
| Day08.DownCount | src/day8.rs:29-31 | the same downward |
| Day08.CalculateVisibility | src/day8.rs:41-50 | the grid of visibilities has the grid's shape and holds each tree's four counts |
| Day08.VisibleIffClearLine | src/day8.rs:88 | the part 1 test holds exactly when all trees in some direction up to the edge are shorter |
| Day08.EdgeVisible | src/day8.rs:88 | trees on the edge are visible |
| Day08.CorrectedRunIsViewingDistance | src/day8.rs:110-113 | `min(count + 1, distance to edge)` is the viewing distance: up to and including the first tree at least as tall |
| Day08.ScenicIsViewingDistances | src/day8.rs:102-114 | part 2's score is the product of the four viewing distances |
| Day08.SolveFirst | src/day8.rs:75-94 | part 1 counts at most every tree, and all of them exactly when each is visible |
| Day08.SolveSecond | src/day8.rs:96-121 | part 2 is the score of some tree, and no tree scores more |
| Day08.ParseRow | src/day8.rs:69 | a row parses exactly when every character is a digit, to those digits |
| Day08.ParseInput | src/day8.rs:63-73 | a parsed input is a rectangle of visibilities with at least one column |
| Day08.ParseDigitRow | src/day8.rs:69 | a line written with a row's digits parses to that row |
| Day08.ParseRowsOf | src/day8.rs:65-70 | lines that each parse to a non-empty row give the grid of those rows |
| Day08Example.ExampleParse | src/day8.rs:128-138 | the text of the tests parses to the 5 x 5 example grid |
| Day08Example.ExampleParseInput | src/day8.rs:63-73 | `parse_input` on the text of the tests gives the example grid's visibility counts |
| Day08Example.ExampleAnswers | src/day8.rs:128-147 | the text of the tests answers 21 and 8 |
| Day09.AddLaws | src/day9.rs:14-23 | vector addition is commutative and associative with zero as identity |
| Day09.Signum | src/day9.rs:30 | `signum` is -1, 0 or 1 with the sign of its argument |
| Day09.Follow | src/day9.rs:26-36 | a knot touching its target stays put; otherwise it moves one step, diagonally if needed, closer on both axes |
| Day09.FollowCatchesUp | src/day9.rs:26-36 | from at most two squares away a follow step ends touching the target |
| Day09.FollowAll | src/day9.rs:88-93 | the `scan` gives one position per target, each the follow step from the previous position |
| Day09.FollowWalk | src/day9.rs:88-93 | a knot following a path that moves one square at a time itself moves one square at a time and always touches its target |
| Day09.KnotsWalk | src/day9.rs:77-85 | each of the nine followers moves one square at a time and touches the knot ahead of it |
| Day09.ElemsOfDistinct | src/day9.rs:74 | a list of distinct positions has as many elements in its set |
| Day09.DistinctCount | src/day9.rs:74 | the number of visited squares is at least 1 and at most the number of steps |
| Day09.SolveFirst | src/day9.rs:72-75 | part 1 counts at most one square per step |
| Day09.SolveSecond | src/day9.rs:77-85 | part 2 counts at most one square per step |
| Day09.Direction | src/day9.rs:57-63 | exactly the letters L, R, U and D give a unit step |
| Day09.Repeat | src/day9.rs:58-61 | `vec![step; count]` holds `count` copies of the step |
| Day09.ParseLine | src/day9.rs:54-63 | a line parses exactly when it has a direction letter and a count. It gives `count` copies of that unit step |
| Day09.ParseLineOfMove | src/day9.rs:54-63 | `L 4` and the like parse back to their steps |
| Day09.Positions | src/day9.rs:65-68 | the second `scan` gives the head's position after each step |
| Day09.PositionIsSum | src/day9.rs:65-68 | each position is the start plus the sum of the steps so far |
| Day09.UnitStepsWalk | src/day9.rs:65-68 | unit steps give a head that moves one square at a time |
| Day09.ParseInput | src/day9.rs:50-70 | the parsed head path starts next to the origin and moves one square at a time |
| Day09Example.ExampleFirst | src/day9.rs:99-113 | the example visits 13 squares with one follower |
| Day09Example.ExampleSecond | src/day9.rs:72-85 | the example visits 1 square with nine followers |
| Day10.Cycles | src/day10.rs:26-31 | `addx` takes two cycles and `noop` one |
| Day10.ParseOp | src/day10.rs:10-17 | a line is `noop` exactly when its first word is `noop`. It is `addx v` exactly when its first word is `addx` and its second parses, to `v` |
| Day10.ParseShowOp | src/day10.rs:10-17 | every instruction parses back from its text |
| Day10.ParseInput | src/day10.rs:45-48 | the program parses exactly when every line does, line by line |
| Day10.CyclesOf | src/day10.rs:26-31 | a program takes between one and two cycles per instruction |
| Day10.XAfterIsTotal | src/day10.rs:19-24 | the register ends as 1 plus every `addx` argument |
| Day10.DuringInstruction | src/day10.rs:56-61 | during the cycles of an instruction the register keeps its value from before it |
| Day10.SignalStep | src/day10.rs:56-61 | an instruction adds the milestone it runs through, times the register before it, and leaves earlier milestones alone |
| Day10.SolveFirst | src/day10.rs:50-65 | the loop, with its early stop after cycle 220, gives the sum of the signal strengths at cycles 20, 60, …, 220 that the program reaches |
| Day10.Pixels | src/day10.rs:71-78 | one pixel is drawn per cycle |
| Day10.PixelAt | src/day10.rs:72-77 | pixel c is lit exactly when the register during cycle c+1 is within 1 of column c mod 40 |
| Day10.Rows | src/day10.rs:83-84 | the screen has at most six rows of 1 to 40 pixels |
| Day10.ScreenOfProgram | src/day10.rs:83-87 | the rows hold the first 240 pixels in order, and splitting the screen at line feeds gives back the rows |
| Day10.SolveSecond | src/day10.rs:67-88 | the nested loops draw exactly the specification's screen |
| Day11.Relieve | src/day11.rs:172-178 | part 1 divides worry by 3 rounding down, and part 2 reduces it below the modulus |
| Day11.Inspect | src/day11.rs:105-116 | an item's new worry is the operation then the relief, and it goes to the true target exactly when the test divides it |
| Day11.InspectAll | src/day11.rs:118-126 | every held item is inspected, in order |
| Day11.Monkey.constructor | src/day11.rs:32-47 | a new monkey has its items and rules and a count of 0 |
| Day11.Monkey.Copy | src/day11.rs:136 | a clone has the same rules and state |
| Day11.Monkey.Reset | src/day11.rs:96-99 | `reset` counts the held items as inspected and empties the hands |
| Day11.Monkey.AddItems | src/day11.rs:101-103 | `add_items` appends the item and leaves the count |
| Day11.ParseOperation | src/day11.rs:60-71 | from the last two words: `* old` is squaring, `* k` multiplying, `+ k` adding, anything else fails |
| Day11.ParseLastNat | src/day11.rs:73-91 | the last word of a line is read as a number, and the parse fails when there is none |
| Day11.ParseShowMonkey | src/day11.rs:49-94 | a monkey written in the puzzle's layout parses back to itself |
| Day11.ParseInput | src/day11.rs:163-168 | one new, distinct monkey per block, holding the block's rules and items with a count of 0. It fails exactly when a block does not parse |
| Day11.DeliverAllEffect | src/day11.rs:142-144 | delivering throws appends to each monkey the values thrown to it, in order |
| Day11.TurnEffect | src/day11.rs:140-146 | in a turn the other monkeys receive its throws, and the monkey ends empty-handed with its count grown by the items it held |
| Day11.RoundsCountsGrow | src/day11.rs:139-147 | inspection counts never decrease |
| Day11.TurnTotals | src/day11.rs:140-146 | a turn moves items and adds what the monkey held to the counts |
| Day11.RoundsConserve | src/day11.rs:139-147 | when no monkey throws to itself, rounds keep the total number of items |
| Day11.InspectCongruent | src/day11.rs:105-116 | inspecting reduced and unreduced worries that agree modulo m (a multiple of the test) throws to the same monkey, and the results still agree |
| Day11.RoundsCongruent | src/day11.rs:139-147 | rounds with reduction and without stay congruent item by item |
| Day11.ReductionKeepsCounts | src/day11.rs:175-178 | reducing modulo a common multiple of the tests gives the same inspection counts as never reducing |
| Day11.TestProductDivisible | src/day11.rs:177 | the product of the tests is positive and divisible by every test |
| Day11.Business | src/day11.rs:149-150 | the answer exists exactly when there are at least two monkeys |
| Day11.MonkeyBusinessMaximal | src/day11.rs:149-150 | no two different monkeys' counts multiply to more than the answer |
| Day11.MonkeyBusinessAttained | src/day11.rs:149-150 | the two counts multiplied belong to two different monkeys |
| Day11.Clone | src/day11.rs:136 | `to_vec` gives new, distinct monkeys with the same rules and state |
| Day11.TakeTurn | src/day11.rs:140-146 | one turn on the objects leaves the states the specification's turn gives |
| Day11.DeliverThrows | src/day11.rs:142-144 | the delivery loop leaves the states `DeliverAll` gives |
| Day11.PlayRound | src/day11.rs:140-146 | a round on the objects matches the specification's round |
| Day11.PlayRounds | src/day11.rs:139-147 | the rounds loop matches the specification's rounds |
| Day11.SolveHelper | src/day11.rs:132-151 | `solve_helper` leaves its input unchanged, and answers the monkey business after the given rounds on a copy |
| Day11.SolveFirst | src/day11.rs:170-173 | part 1 is the monkey business after 20 rounds dividing worry by 3 |
| Day11.SolveSecond | src/day11.rs:175-179 | part 2 is the monkey business after 10000 rounds modulo the test product. By the congruence results, that equals 10000 rounds with worry never reduced |
| Day11Example.ExampleBlocksParse | src/day11.rs:186-213 | each example block parses to its monkey |
| Day11Example.ExampleFirst | src/day11.rs:215-220 | 20 rounds of part 1 on the example give 10605 |
| Day11Example.ExampleSecondRoundOne | src/day11.rs:222-227 | on the example the test product is 96577, and one round of part 2 gives counts 2, 4, 3 and 6, the same as without reduction |

## Findings

| source | as written | input that shows it | evidently intended | confidence | as-written member | corrected member |
|---|---|---|---|---|---|---|
| src/day1.rs:29-32 | part 2 pops the heap three times with `unwrap` | the empty text, which gives one group: the second `pop().unwrap()` panics, yet the test at src/day1.rs:48-53 expects 0 | the sum of the three largest totals, or of all of them when there are fewer than three | medium, not executed | Day01.SolveSecond, Day01.EmptyInput | Day01.TopThreeTotal, Day01.TopThreeTotalAgrees |
| src/day9.rs:116-121 | `test_second` expects 36 on the eight-move input of its own file | that input: the ninth knot never leaves the start, so part 2 visits 1 square | the test expects 1; 36 is the answer to the puzzle's larger example, and the solver itself needs no correction | high, not executed | Day09Example.ExampleSecond | Day09.SolveSecond |

## Left out

- `src/solver.rs`, `src/main.rs` and `src/template.rs` (the trait that reads the
  input file and prints answers) are not part of this model. Reading files,
  `BufReader` and printing are I/O.
- The parsers take the text (days 1, 6 and 11) or its lines (every other day).
  `BufRead::lines` and `flatten` are not modelled; `Text.Lines` stands in for
  them.
- Integer widths: `i64`, `usize` and `u32` are modelled as unbounded
  integers. Overflow does not occur on puzzle-sized input, and the model does
  not capture the original's panic or wrap-around where it would occur. This
  covers:
  - numbers too large for `parse`;
  - day 11's `num * num` in part 1;
  - the `usize` product of the tests.
- The bytes of day 6 are taken as given. The conversion of the text to bytes
  (`as_bytes`) is not modelled.
- Day 7's `HashMap` is an association list with unique keys. Its iteration
  order does not matter to the sums taken over it.
- Text.Lines: `BufRead::lines` also drops the `\r` of a `\r\n` line ending.
  `Lines` splits at line feeds only, so text with Windows line endings keeps
  the `\r` at the end of each line.
- Day03.Priority: `is_lowercase` is modelled as the ASCII range `'a'..'z'`.
  Rust's `char::is_lowercase` also holds for other lower-case letters (`é`),
  which the original scores from `'a'` and the model from `'A'`. The two agree
  on ASCII text, which is what the puzzle's input is.
- Day03.CommonItemsOfLine: the line is halved by characters. The original
  halves it by UTF-8 bytes (`s.len()`), and slicing panics when the middle falls
  inside a multi-byte character (`aéa`). The model is exact for ASCII lines.
- Day01.SolveSecond: the original's `BinaryHeap` is modelled by sorting. Only
  the three popped values matter; the heap's internal layout is not modelled.
- Day07.ExampleAnswers: proved on the example's directory tree built directly.
  Replaying the example's terminal text through `ParseInput` is not proved.
- Day09Example: the example's step list is built directly. Parsing the
  example's text is covered only through the generic `ParseLineOfMove`.
- Day10: the example program of the tests (146 instructions, answer 13140 and
  its screen) is not carried through the model.
- Day11Example.ExampleSecondRoundOne: only the first of part 2's 10000 rounds
  is followed on the example. The test's answer 2713310158 is not proved.
- Day11Example.ExampleBlocksParse: each example block is parsed. Splitting the
  whole example text at blank lines is not proved.
- Day11: monkeys are required to have a non-zero test and throw targets that
  exist (`WellFormed`). The original panics on a zero divisor or a missing
  target; those panics are not modelled.
