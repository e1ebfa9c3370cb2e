# Advent of Code 2022, days 1 to 6, in Dafny

This project models six puzzle solutions written in Rust, one module for each
solution. For each one it proves what the parsing accepts and reads back, how
the answer is computed from what was read, and the answers to the puzzles'
own examples. Day 5 is modelled with a corrected stack count (see
"## Findings"), and day 3's part 2 value is stated only when every group has a
single badge.

- **Calories** (`src/bin/day_1.rs`). The input is groups of numbers, one group
  per elf, with a blank line between groups. Part 1 is the largest group total.
  Part 2 sorts the totals in place and sums the three largest. The in-place
  sort is an insertion sort on an `array`.
- **RockPaperScissors** (`day-02`). Each line is one round of a strategy guide.
  Part 1 reads the line as two shapes. Part 2 reads it as a shape and the
  outcome wanted. The answer is the summed score.
- **Rucksacks** (`day-03`). Each line is one rucksack. Part 1 finds the item
  that is in both halves. Part 2 finds the badge common to each group of three
  rucksacks. Both sum the item priorities.
- **CampCleanup** (`day-04`). Each line is a pair of section ranges. The
  answers count the pairs where one range contains the other (part 1) and the
  pairs that overlap (part 2).
- **SupplyStacks** (`day-05`). The input is a drawing of crate stacks, then a
  blank line, then crane instructions. The two cranes are modelled twice:
  - as functions on values (`MoveOneAtATime`, `MoveBatch`, `Run`);
  - as methods that change an `array` of stacks in place, the way
    `apply_instructions` mutates its vector. Each method is proved against
    the functions.

  The nom parsers are modelled as functions over the text. Each has a
  printer beside it, and a round-trip lemma proves that parsing the printed
  text gives back the value.
- **TuningTrouble** (`day-06`). The input is a character stream. The answer is
  where the first window of 4 (or 14) distinct characters ends. `FindMarker`
  keeps the source's sliding buffer and loop. Its contract says the result is
  the first marker's end, and that the error cases happen exactly when there
  is no marker.

Two shared modules:

- **Common**: `Option`, `Result`, sequence reversal and sums.
- **Text**: the parts of Rust's `str` the solutions use. These are `split`,
  `split_once`, `lines`, decimal parsing, and the nom combinators `tag` and
  `digit1`.

Each `unwrap`, `expect`, `unreachable!` and `panic!` in the source becomes an
error value (`None`, or an `Err` that names the abort).

## Model

| member | source | states |
|---|---|---|
| Calories.ParseItems | src/bin/day_1.rs:12 | Parsing succeeds exactly when every line of the group is a decimal number; element i is the value of line i |
| Calories.TotalsOf | src/bin/day_1.rs:11-12 | Succeeds exactly when every group parses; total i is the sum of group i's items |
| Calories.Groups | src/bin/day_1.rs:11 | `split("\n\n")`: at least one group; Calories.SplitJoinBlank states what the groups are |
| Calories.ElfTotals | src/bin/day_1.rs:11-12 | One total per blank-line-separated group of the input |
| Calories.Max | src/bin/day_1.rs:13-14 | The maximum is one of the totals and no total exceeds it |
| Calories.Part1 | src/bin/day_1.rs:10-15 | Fails exactly when some item does not parse; otherwise the answer is one elf's total and at least every elf's total |
| Calories.Insert | src/bin/day_1.rs:22 | Insertion into a sorted sequence keeps it sorted and adds exactly the one element |
| Calories.SortAscending | src/bin/day_1.rs:22 | The reference sort: sorted ascending, and a permutation of its input |
| Calories.SortedUnique | src/bin/day_1.rs:22 | Two sorted permutations of the same totals are equal, so the sum of the three largest does not depend on how the sort works |
| Calories.Sort | src/bin/day_1.rs:22 | The in-place sort of `elves.sort()` leaves the array sorted ascending and a permutation of its old contents |
| Calories.SumOfTopThree | src/bin/day_1.rs:20-24 | Copying the totals into an array, sorting it in place, reversing it and summing the first three gives the sum of the three largest totals |
| Calories.Part2 | src/bin/day_1.rs:17-25 | Fails exactly when part 1 fails; otherwise the answer is the sum of the three largest totals |
| Calories.TopThreeOfAnySort | src/bin/day_1.rs:22-24 | Any ascending arrangement of the totals gives the same top-three sum |
| Calories.TopThreeAreLargest | src/bin/day_1.rs:22-24 | Every total among the three taken is at least every total left out, and the descending order is a permutation of the totals |
| Calories.TopThreeOfFew | src/bin/day_1.rs:24 | With three elves or fewer, `take(3)` takes them all, so the answer is the sum of every total |
| Calories.TopThreeAtLeastMax | src/bin/day_1.rs:17-25 | The top-three sum is at least the largest total |
| Calories.Part2AtLeastPart1 | src/bin/day_1.rs:17-25 | Part 2's answer is never below part 1's answer |
| Calories.SplitJoinBlank | src/bin/day_1.rs:11 | Splitting on "\n\n" gives back the groups that were joined, when no group holds a blank line or ends in a newline |
| Calories.ElfTextRoundTrip | src/bin/day_1.rs:12 | The item lines of a printed elf parse back to exactly its items |
| Calories.ElfTotalsRoundTrip | src/bin/day_1.rs:11-12 | For any elves printed as groups joined by blank lines, the totals are the sums of each elf's items, in order |
| Calories.SampleText | src/bin/day_1.rs:27-45 | The sample elves print as the test's input text |
| Calories.SampleTotals | src/bin/day_1.rs:27-45 | The sample input's totals are 6000, 4000, 11000, 24000 and 10000 |
| Calories.SamplePart1 | src/bin/day_1.rs:27-45 | Part 1 of the sample is 24000 |
| Calories.SamplePart2 | src/bin/day_1.rs:47-65 | Part 2 of the sample is 45000 |
| RockPaperScissors.OutcomeScore | day-02/src/main.rs:44-52 | A loss scores 0, a draw 3 and a win 6, and no other score is possible |
| RockPaperScissors.ShapeScore | day-02/src/main.rs:56-64 | A shape scores between 1 and 3 |
| RockPaperScissors.ScoreAgainst | day-02/src/main.rs:66-81 | Equal shapes draw; a shape wins exactly against the shape it beats and loses exactly to the shape that beats it |
| RockPaperScissors.WinIsLossForOther | day-02/src/main.rs:66-81 | A wins against B exactly when B loses against A |
| RockPaperScissors.NeededFor | day-02/src/main.rs:83-98 | The shape chosen against the opponent's shape produces the wanted outcome |
| RockPaperScissors.NeededForUnique | day-02/src/main.rs:83-98 | The chosen shape is the only one that produces that outcome |
| RockPaperScissors.RoundScore | day-02/src/main.rs:14 | A round scores between 1 and 9 |
| RockPaperScissors.ParseShapes | day-02/src/main.rs:101-121 | Only a line of the form "A X" with letters A-C and X-Z is accepted, and it is the printing of the shapes returned |
| RockPaperScissors.ParseShapesLine | day-02/src/main.rs:101-121 | Every pair of shapes, printed as a guide line, parses back to itself |
| RockPaperScissors.ParseShapeAndOutcome | day-02/src/main.rs:123-144 | Only a line printed from a shape and an outcome is accepted, and it parses to that shape and outcome |
| RockPaperScissors.ParseShapeAndOutcomeLine | day-02/src/main.rs:123-144 | Every shape and outcome, printed as a guide line, parses back to itself |
| RockPaperScissors.ParseGuide1 | day-02/src/main.rs:10-13 | The guide parses exactly when every line does; round i is line i's reading |
| RockPaperScissors.ParseGuide2 | day-02/src/main.rs:18-21 | The guide parses exactly when every line does; round i is line i's reading |
| RockPaperScissors.Score1 | day-02/src/main.rs:14-15 | The summed part-1 score of n rounds lies between n and 9n |
| RockPaperScissors.Score2 | day-02/src/main.rs:22-26 | The summed part-2 score of n rounds lies between n and 9n |
| RockPaperScissors.TotalScore1 | day-02/src/main.rs:10-16 | Part 1's total exists exactly when every line is a round, and lies between one and nine points per line |
| RockPaperScissors.TotalScore2 | day-02/src/main.rs:18-27 | Part 2's total exists exactly when every line is a shape and an outcome, and lies between one and nine points per line |
| RockPaperScissors.Part1 | day-02/src/main.rs:10-16 | `part_1` on the input's lines: an answer exactly when every line parses, between one and nine points per line |
| RockPaperScissors.Part2 | day-02/src/main.rs:18-27 | `part_2` on the input's lines: an answer exactly when every line parses, between one and nine points per line |
| RockPaperScissors.Part2RoundIsPart1Round | day-02/src/main.rs:22-25 | Part 2's round score is part 1's score for the shape chosen for the outcome |
| RockPaperScissors.ParseGuide1OfGuide | day-02/src/main.rs:10-13 | Any list of rounds, printed one per line, parses back to itself |
| RockPaperScissors.ParseGuide2OfGuide | day-02/src/main.rs:18-21 | Any list of shape and outcome rounds, printed one per line, parses back to itself |
| RockPaperScissors.TotalScore1OfGuide | day-02/src/main.rs:10-16 | Part 1's total for the lines of a guide is its rounds' summed score |
| RockPaperScissors.TotalScore2OfGuide | day-02/src/main.rs:18-27 | Part 2's total for the lines of a guide is its rounds' summed score |
| RockPaperScissors.PartsOfPrintedGuide | day-02/src/main.rs:10-27 | A guide printed as text, one round per line, is answered with its rounds' summed score by both parts |
| RockPaperScissors.SampleGuideScores1 | day-02/src/main.rs:146-156 | The sample guide's lines score 15 under part 1 |
| RockPaperScissors.SampleGuideScores2 | day-02/src/main.rs:158-168 | The sample guide's lines score 12 under part 2 |
| RockPaperScissors.SampleGuide | day-02/src/main.rs:146-168 | The sample input's answers are 15 and 12 |
| Rucksacks.Priority | day-03/src/main.rs:67-76 | a-z get priorities 1-26 and A-Z get 27-52, relative to the character codes |
| Rucksacks.PriorityInjective | day-03/src/main.rs:67-76 | Different letters have different priorities |
| Rucksacks.PrioritySurjective | day-03/src/main.rs:67-76 | Every priority from 1 to 52 belongs to some letter |
| Rucksacks.PrioritySamples | day-03/src/main.rs:78-87 | The test's seven letters have priorities 1, 16, 38, 42, 22, 20 and 19 |
| Rucksacks.CharSet | day-03/src/main.rs:37 | The set holds exactly the characters of the left half |
| Rucksacks.Compartments | day-03/src/main.rs:35 | The two halves concatenate to the line, and the first half has length len/2 |
| Rucksacks.FindFirstIn | day-03/src/main.rs:39-42 | Returns the first position whose item is in the set, or nothing when no item is |
| Rucksacks.FindItemInBothCompartments | day-03/src/main.rs:34-43 | The item found is in both halves; nothing is found exactly when the halves share no item |
| Rucksacks.FindItemIsFirst | day-03/src/main.rs:34-43 | The item returned is the first shared item of the right half |
| Rucksacks.PrioritySum | day-03/src/main.rs:14-20 | Succeeds exactly when every rucksack has a shared item |
| Rucksacks.PrioritySumOfItems | day-03/src/main.rs:14-20 | The sum is the sum of the priorities of the items found, in order |
| Rucksacks.PrioritySumBounds | day-03/src/main.rs:14-20 | With letter items, the sum lies between 1 and 52 per rucksack |
| Rucksacks.Part1 | day-03/src/main.rs:14-20 | Fails exactly when some line's halves share no item |
| Rucksacks.Groups | day-03/src/main.rs:90 | Consecutive lines grouped in threes; group g holds lines 3g, 3g+1 and 3g+2 |
| Rucksacks.CommonItems | day-03/src/main.rs:105-108 | What remains after both `retain`s: exactly the items in all three rucksacks |
| Rucksacks.FindBadge | day-03/src/main.rs:105-111 | The badge is in all three rucksacks; there is none exactly when they share no item |
| Rucksacks.SoleBadgeTotalAppend | day-03/src/main.rs:90 | Adding a group with a single common item adds that item's priority to the total |
| Rucksacks.BadgeTotal | day-03/src/main.rs:90 | Fails exactly when some group has no badge; when every group shares exactly one item, the total is the sum of those items' priorities |
| Rucksacks.Part2 | day-03/src/main.rs:89-91 | Part 2 as a whole: fails exactly when some group of three has no common item; otherwise sums the badges' priorities |
| Rucksacks.FindItemOf | day-03/src/main.rs:34-43 | A rucksack printed as two equal halves yields the first right-half item that is also in the left half |
| Rucksacks.SampleItems | day-03/src/main.rs:45-65 | The six sample rucksacks' shared items are p, L, P, v, t and s |
| Rucksacks.SamplePart1 | day-03/src/main.rs:22-32 | Part 1 of the sample is 157 |
| Rucksacks.SampleBadge0 | day-03/src/main.rs:113-123 | The first sample group's only common item is r |
| Rucksacks.SampleBadge1 | day-03/src/main.rs:93-103 | The second sample group's only common item is Z |
| Rucksacks.SamplePart2 | day-03/src/main.rs:93-103 | Every sample group has exactly one badge and the badge total is 70 |
| CampCleanup.ParseRange | day-04/src/main.rs:48-52 | A range is read only from text that holds a '-' |
| CampCleanup.ParseRangeMeaning | day-04/src/main.rs:48-52 | A range parses exactly when there is a first '-' with a number on both sides; the bounds are those numbers |
| CampCleanup.ParseRangeText | day-04/src/main.rs:48-52 | Every range, printed as "lo-hi", parses back to itself |
| CampCleanup.ParseRanges | day-04/src/main.rs:33-37 | A pair is read only from a line that holds a ',' |
| CampCleanup.ParseRangesMeaning | day-04/src/main.rs:33-37 | A pair parses exactly when there is a first ',' with a range on both sides; the pair is those two ranges |
| CampCleanup.ParseRangesText | day-04/src/main.rs:33-37 | Every pair of ranges, printed as "a,b", parses back to itself |
| CampCleanup.CoversIffBounds | day-04/src/main.rs:61-64 | For a well-formed inner range (lo <= hi): one range contains every section of it exactly when its bounds enclose the inner range's |
| CampCleanup.OneIsFullyContained | day-04/src/main.rs:61-64 | For well-formed ranges, the bound comparison holds exactly when one range's sections are all in the other |
| CampCleanup.OneIsFullyContainedSymmetric | day-04/src/main.rs:61-64 | Containment does not depend on the order of the pair |
| CampCleanup.DoOverlap | day-04/src/main.rs:93-99 | The two-branch test equals "each range starts no later than the other ends" |
| CampCleanup.DoOverlapSymmetric | day-04/src/main.rs:93-99 | Overlap does not depend on the order of the pair |
| CampCleanup.DoOverlapMeaning | day-04/src/main.rs:93-99 | For well-formed ranges (lo <= hi): two ranges overlap exactly when some section is in both |
| CampCleanup.ContainedOverlaps | day-04/src/main.rs:93-99 | For well-formed ranges (lo <= hi): a pair where one range contains the other also overlaps |
| CampCleanup.ParseAll | day-04/src/main.rs:13-14 | The input parses exactly when every line does; pair i is line i's reading |
| CampCleanup.ParseAllPairLines | day-04/src/main.rs:13-14 | Any list of pairs, printed one per line, parses back to itself |
| CampCleanup.CountContained | day-04/src/main.rs:15-16 | The count is the number of positions whose pair has one range containing the other (so at most the number of pairs) |
| CampCleanup.CountOverlapping | day-04/src/main.rs:75-76 | The count is the number of positions whose pair overlaps (so at most the number of pairs) |
| CampCleanup.ContainedAtMostOverlapping | day-04/src/main.rs:72-77 | For well-formed ranges (lo <= hi): at most as many pairs are contained as overlap |
| CampCleanup.Part1 | day-04/src/main.rs:12-17 | Fails exactly when some line does not parse; otherwise the number of lines whose pair has one range containing the other |
| CampCleanup.Part2 | day-04/src/main.rs:72-77 | Fails exactly when some line does not parse; otherwise the number of lines whose pair overlaps |
| CampCleanup.LinesOfPairLines | day-04/src/main.rs:13-14 | Pairs printed as text, one per line, are read back as themselves |
| CampCleanup.Part1OfPairLines | day-04/src/main.rs:12-17 | Part 1 of pairs printed one per line is the number of pairs where one range contains the other |
| CampCleanup.Part2OfPairLines | day-04/src/main.rs:72-77 | Part 2 of pairs printed one per line is the number of overlapping pairs |
| CampCleanup.Part1AtMostPart2 | day-04/src/main.rs:72-77 | For input whose ranges are all well-formed (lo <= hi): part 1's answer never exceeds part 2's answer |
| CampCleanup.ReversedRangeCounts | day-04/src/main.rs:48-99 | The reversed range "5-3" is accepted, and the line "5-3,4-4" counts for part 1 but not for part 2, so on such input part 1 can exceed part 2 |
| CampCleanup.ParseSamples | day-04/src/main.rs:39-59 | "2-4" reads as 2..=4, and "2-4,6-8" as the pair 2..=4 and 6..=8 |
| CampCleanup.PredicateSamples | day-04/src/main.rs:66-70 | The test's containment examples hold; the overlap examples of lines 101-105 hold too |
| CampCleanup.SampleParsed | day-04/src/main.rs:19-31 | The six sample lines parse to the six sample pairs |
| CampCleanup.SampleCounts | day-04/src/main.rs:19-31 | Two sample pairs are contained and four overlap |
| CampCleanup.SampleParts | day-04/src/main.rs:79-91 | The sample's answers are 2 and 4 |
| SupplyStacks.MoveOneAtATime | day-05/src/main.rs:67-74 | Part 1's crane keeps the number of stacks |
| SupplyStacks.MoveBatch | day-05/src/main.rs:76-89 | Part 2's crane keeps the number of stacks |
| SupplyStacks.Move | day-05/src/main.rs:67-89 | One instruction carried out by either crane keeps the number of stacks |
| SupplyStacks.Run | day-05/src/main.rs:67-89 | Running a list of instructions keeps the number of stacks |
| SupplyStacks.MoveSucceeds | day-05/src/main.rs:67-89 | A move aborts exactly when it moves crates and a stack number is 0 or too large, or the source stack is too short |
| SupplyStacks.MoveEffect | day-05/src/main.rs:67-89 | The top `amount` crates leave the source stack and land on the target, reversed for part 1 and in order for part 2; every other stack is unchanged |
| SupplyStacks.MoveWholeStack | day-05/src/main.rs:67-89 | Moving a whole stack onto another empties it |
| SupplyStacks.MoveOntoItself | day-05/src/main.rs:67-89 | A move that does not abort and has the same source and target changes nothing |
| SupplyStacks.SingleCrateCranesAgree | day-05/src/main.rs:67-89 | The two cranes agree on single-crate moves |
| SupplyStacks.MoveConserves | day-05/src/main.rs:67-89 | A move keeps the multiset of all crates |
| SupplyStacks.RunConserves | day-05/src/main.rs:67-89 | A whole run keeps the multiset of all crates |
| SupplyStacks.RunAppend | day-05/src/main.rs:68 | Running two lists of instructions one after the other is running their concatenation, stopping at the first abort |
| SupplyStacks.MoveOneAtATimeIsRepeated | day-05/src/main.rs:69-72 | Part 1's move is `amount` single-crate moves in a row |
| SupplyStacks.TopCrates | day-05/src/main.rs:91-96 | Succeeds exactly when no stack is empty, and then reads each stack's top crate in order; the only abort is an empty stack |
| SupplyStacks.MoveTopCrate | day-05/src/main.rs:70-71 | Popping one crate and pushing it onto another stack in place does what the single-crate move does, with the same abort |
| SupplyStacks.MoveOneAtATimeIn | day-05/src/main.rs:69-72 | The in-place loop leaves the stacks as part 1's crane says, or aborts with its error |
| SupplyStacks.MoveBatchIn | day-05/src/main.rs:78-87 | Lifting the crates into a buffer and putting them down in place gives part 2's crane's result, or its abort |
| SupplyStacks.ApplyInstructions | day-05/src/main.rs:67-74 | The stacks end as the run of part 1's crane leaves them, or the first abort is returned |
| SupplyStacks.ApplyInstructionsPart2 | day-05/src/main.rs:76-89 | The stacks end as the run of part 2's crane leaves them, or the first abort is returned |
| SupplyStacks.ParseCrate | day-05/src/main.rs:199-203 | Reads exactly one drawn crate "[c]" off the front of the text, and fails only when the text does not start with one |
| SupplyStacks.TryParseCrate | day-05/src/main.rs:188-203 | Accepts exactly "[c]" or three spaces and consumes those three characters |
| SupplyStacks.TryParseCellText | day-05/src/main.rs:188-203 | Every cell, printed, parses back to itself |
| SupplyStacks.ParseLine | day-05/src/main.rs:182-186 | A row parses when its first cell does; the text consumed is the row's printing |
| SupplyStacks.ParseLineText | day-05/src/main.rs:182-186 | Every printed row parses back to itself, whatever follows that does not continue the row |
| SupplyStacks.ParseRows | day-05/src/main.rs:150 | The drawing parses when its first cell does; the text consumed is the printing of the rows returned |
| SupplyStacks.ParseRowsText | day-05/src/main.rs:150 | Every printed drawing parses back to its rows, whatever follows that does not continue the drawing |
| SupplyStacks.FillStacks | day-05/src/main.rs:152-160 | Pushing each row's crates onto the stack below it fills column i from the top down; aborts exactly when a crate lies past the last stack |
| SupplyStacks.RowCrateWidth | day-05/src/main.rs:155-158 | One past a row's rightmost crate: every crate of the row lies before it, and the cell just before it holds a crate |
| SupplyStacks.CrateWidth | day-05/src/main.rs:155-158 | Every crate of the drawing lies over one of the first that many stacks, and no fewer stacks would do |
| SupplyStacks.StackCount | day-05/src/main.rs:152 | Corrected stack count: at least the first row's cell count, enough for every crate, and the least count that is both |
| SupplyStacks.AsWrittenStackCount | day-05/src/main.rs:152 | The source's count (the first row's cell count) never exceeds the corrected one, and equals it exactly when every crate has a stack below it |
| SupplyStacks.ParseCratesAsWritten | day-05/src/main.rs:149-163 | `parse_crates` as written: one stack per cell of the first row, aborting exactly when a later row's crate lies past them |
| SupplyStacks.ParseCrates | day-05/src/main.rs:149-163 | The corrected `parse_crates`: fails only on an unreadable drawing; stack i is column i of the drawing, top first |
| SupplyStacks.ParseInstruction | day-05/src/main.rs:217-228 | Parsing an instruction consumes some input |
| SupplyStacks.ParseFieldText | day-05/src/main.rs:219-225 | A field of an instruction, its tag then a printed number, is read back up to whatever follows that cannot extend the number |
| SupplyStacks.ParseInstructionText | day-05/src/main.rs:217-232 | Every instruction printed as "move N from A to B" parses back to itself, whatever non-digit text follows |
| SupplyStacks.ParseInstructions | day-05/src/main.rs:212-215 | No instruction is read exactly when the first one does not parse, and then nothing is consumed |
| SupplyStacks.ParseInstructionsText | day-05/src/main.rs:212-215 | A non-empty list of instructions printed one per line parses back to itself, leaving what follows |
| SupplyStacks.SkipPastBlankLine | day-05/src/main.rs:100 | Skips to just after the first "\n\n", and fails exactly when there is none |
| SupplyStacks.ParsedInput | day-05/src/main.rs:98-104 | With the corrected stack count: fails exactly when the drawing or the blank line is missing; the stacks are the drawing's columns, as many as the corrected count |
| SupplyStacks.ParsedInputAsWritten | day-05/src/main.rs:98-104 | With the source's stack count, a crate past the first row's width aborts the parse |
| SupplyStacks.AsWrittenAgrees | day-05/src/main.rs:152 | The source's parse and the corrected parse differ exactly when the source's aborts because a crate has no stack below it |
| SupplyStacks.ParseInput | day-05/src/main.rs:98-104 | With the corrected stack count: reading the input into an array of stacks gives the parsed stacks and instructions, or the same abort |
| SupplyStacks.Answer | day-05/src/main.rs:21-25 | With the corrected stack count: a successful answer has one letter per stack of the parsed input |
| SupplyStacks.Part1 | day-05/src/main.rs:21-25 | With the corrected stack count: part 1 parses, runs part 1's crane in place and reads the tops |
| SupplyStacks.Part2 | day-05/src/main.rs:44-48 | With the corrected stack count: part 2 parses, runs part 2's crane in place and reads the tops |
| SupplyStacks.SampleParseCrates | day-05/src/main.rs:165-180 | The sample drawing parses to stacks NZ, DCM and P, leaving "\n 1   2   3" |
| SupplyStacks.SampleStacksFilled | day-05/src/main.rs:165-180 | The sample's corrected count is 3 and its first row has 2 cells; the corrected count fills NZ, DCM, P and the source's count aborts |
| SupplyStacks.SampleParsed | day-05/src/main.rs:106-147 | The sample input parses to stacks NZ, DCM, P and its four instructions |
| SupplyStacks.SampleRunOneAtATime | day-05/src/main.rs:27-42 | Part 1's crane leaves the sample stacks as C, M, ZNDP |
| SupplyStacks.SampleRunBatch | day-05/src/main.rs:50-65 | Part 2's crane leaves the sample stacks as M, C, DNZP |
| SupplyStacks.SampleAnswerPart1 | day-05/src/main.rs:27-42 | Part 1 of the sample is "CMZ" |
| SupplyStacks.SampleAnswerPart2 | day-05/src/main.rs:50-65 | Part 2 of the sample is "MCD" |
| SupplyStacks.SampleAsWrittenAborts | day-05/src/main.rs:27-42 | With the source's stack count the sample aborts with an index out of range |
| TuningTrouble.ElementsSize | day-06/src/main.rs:83-85 | A window has at most as many distinct characters as its length, and exactly as many when its characters are pairwise distinct |
| TuningTrouble.ContainsAllUniqueChars | day-06/src/main.rs:83-85 | The set-size comparison holds exactly when the buffer's characters are pairwise distinct |
| TuningTrouble.FindMarker | day-06/src/main.rs:9-35 | The sliding buffer returns the end of the first window of distinct characters; it fails as too short exactly when the input is shorter than the window, and finds no marker exactly when no window qualifies |
| TuningTrouble.FirstMarkerUnique | day-06/src/main.rs:9-35 | There is only one first marker |
| TuningTrouble.Part1 | day-06/src/main.rs:9-35 | The end of the first window of 4 distinct characters, with both failure cases stated exactly |
| TuningTrouble.Part2 | day-06/src/main.rs:46-72 | The end of the first window of 14 distinct characters, with both failure cases stated exactly |
| TuningTrouble.Sample1Width4 | day-06/src/main.rs:37-44 | The first sample's first 4-marker ends at 7 |
| TuningTrouble.Sample2Width4 | day-06/src/main.rs:37-44 | The second sample's first 4-marker ends at 5 |
| TuningTrouble.Sample3Width4 | day-06/src/main.rs:37-44 | The third sample's first 4-marker ends at 6 |
| TuningTrouble.Sample4Width4 | day-06/src/main.rs:37-44 | The fourth sample's first 4-marker ends at 10 |
| TuningTrouble.Sample5Width4 | day-06/src/main.rs:37-44 | The fifth sample's first 4-marker ends at 11 |
| TuningTrouble.Sample1Width14 | day-06/src/main.rs:74-81 | The first sample's first 14-marker ends at 19 |
| TuningTrouble.Sample2Width14 | day-06/src/main.rs:74-81 | The second sample's first 14-marker ends at 23 |
| TuningTrouble.Sample3Width14 | day-06/src/main.rs:74-81 | The third sample's first 14-marker ends at 23 |
| TuningTrouble.Sample4Width14 | day-06/src/main.rs:74-81 | The fourth sample's first 14-marker ends at 29 |
| TuningTrouble.Sample5Width14 | day-06/src/main.rs:74-81 | The fifth sample's first 14-marker ends at 26 |
| Text.Split | src/bin/day_1.rs:11 | `str::split`: the pieces contain no separator, joining them with it gives back the text, and each piece ends where the first separator of the remaining text begins |
| Text.SplitJoin | src/bin/day_1.rs:11 | Splitting joined pieces that contain no separator gives back the pieces |
| Text.SplitOnce | day-02/src/main.rs:104 | `str::split_once`: fails exactly when the separator does not occur; otherwise the text is left + separator + right, and left holds no separator |
| Text.FirstSeparator | day-04/src/main.rs:34 | Splitting once on a character splits at its first occurrence |
| Text.Lines | day-02/src/main.rs:12 | `str::lines`: no line holds a newline, and an empty text has no lines |
| Text.LinesJoin | day-02/src/main.rs:12 | Lines joined by newlines read back as the same lines, when the last one is non-empty |
| Text.LinesJoinTerminated | day-02/src/main.rs:12 | A trailing newline adds no line |
| Text.ParseNat | day-04/src/main.rs:51 | Parsing a number succeeds exactly on a non-empty string of ASCII digits |
| Text.ParseNatToString | day-04/src/main.rs:51 | Every number, printed in decimal, parses back to itself |
| Text.Digits1 | day-05/src/main.rs:230-232 | `digit1` then a parse: succeeds exactly on a leading digit, and then consumes at least one character |
| Text.Digits1Reads | day-05/src/main.rs:230-232 | What `digit1` then a parse reads is the whole leading run of digits, as its decimal value, and it leaves what follows that run |
| Text.Digits1OfNatToString | day-05/src/main.rs:230-232 | `digit1` followed by a parse reads back a printed number and stops at the first non-digit |
| Text.Tag | day-05/src/main.rs:219 | `tag` succeeds exactly when the text starts with the tag, and returns what follows |
| Text.IndexOf | day-05/src/main.rs:100 | The position found is the first occurrence of the pattern; nothing is found exactly when the pattern never occurs |
| Common.Reverse | day-05/src/main.rs:69-72 | Element i of the reversal is element n-1-i of the original, so a `VecDeque` pushed at the front holds the crates in reverse order of arrival |
| Common.SumPermutation | src/bin/day_1.rs:22-24 | Permuting numbers does not change their sum |

## Left out

- File input and the `main` functions that print the answers are not modelled. Every part function takes the input text as a parameter.
- Numbers are unbounded naturals. `usize` overflow is not modelled, and neither is the leading '+' that Rust's `parse` also accepts.
- `str::lines` is modelled on "\n" only. A "\r\n" line ending is not stripped.
- Strings are sequences of `char`. Byte offsets and UTF-8 are not modelled, so `split_at(len / 2)` in day 3 is modelled as splitting the character sequence at its middle.
- The nom library is modelled only through the combinators used (`separated_list0`/`separated_list1`, `tag`, `digit1`, `many_till`, `count(newline, 2)`, `delimited`, `opt`). Its error values are collapsed into one `Malformed` abort.
- `parse_input` returns its unconsumed input, and `finish()` does not reject it. The model also ignores trailing text after the instructions.
- CampCleanup: the source accepts reversed ranges such as "5-3" (an empty `5..=3`). Its comparisons still apply to them, and then a pair can count as contained without counting as overlapping. The model keeps that behaviour (CampCleanup.ReversedRangeCounts), but the relations between containment, overlap and shared sections, and part 1 never exceeding part 2, are proved only for well-formed ranges.
- Rucksacks.Groups: `tuples()` silently drops a trailing group of fewer than three lines. The model drops it too, and no lemma treats that case separately.
- Rucksacks.BadgeTotal: `into_iter().next()` on a `HashSet` takes an arbitrary element. The total is stated only when every group has exactly one common item, which is what the puzzle promises.
- Rucksacks.Part2: for the same reason, the value is stated only when every group has a single badge.
- Rucksacks.Priority: for a character that is not an ASCII letter, the source's `u8` subtraction can underflow and panic, and `c as u8` truncates. The model applies the same formula on integers and states the result only for letters.
- Rucksacks.Part1: its own contract states only when it succeeds; Rucksacks.PrioritySumOfItems and Rucksacks.SamplePart1 state the value.
- Rucksacks.PrioritySum: its own contract states only when it succeeds; the value is stated by Rucksacks.PrioritySumOfItems.
- Calories.Groups: its own contract states only that there is at least one group; Calories.SplitJoinBlank and Calories.ElfTotalsRoundTrip state what the groups are.
- SupplyStacks.ParseInstruction: its own contract states only that input is consumed; SupplyStacks.ParseInstructionText states what is read.
- SupplyStacks.ParsedInputAsWritten: its own contract states only the abort paths; SupplyStacks.AsWrittenAgrees states that it equals the corrected parse on every input where it does not abort with BadStackIndex.
- SupplyStacks.Answer: its own contract states only the length of the answer; the sample lemmas and SupplyStacks.TopCrates state its letters.
- Each panic becomes an error value that the caller returns at once. The model keeps which panic happened, but not the message or the unwinding.
- `RockPaperScissors.Part1`/`Part2` return the parse failure as `None` where the source hits `unreachable!` or `unwrap`. Their values are stated through RockPaperScissors.PartsOfPrintedGuide.

## Findings

| source | as written | input that shows it | evidently intended | confidence | as-written member | corrected member |
|---|---|---|---|---|---|---|
| day-05/src/main.rs:152 | `vec![VecDeque::new(); lines[0].len()]` sizes the stacks by the number of cells in the drawing's first row | The tests' own sample: its first row "    [D]" has 2 cells, so the crate P in the third row is pushed at index 2 of a 2-element vector and the program panics | One stack for every column of the drawing: the first row's cell count, raised to one past the rightmost crate when a crate lies further right (3 for the sample); on every input where the source does not panic this is the count it uses | not executed | SupplyStacks.SampleAsWrittenAborts | SupplyStacks.SampleAnswerPart1 |
