/** Rock paper scissors scoring (day-02/src/main.rs). Each line of the
    strategy guide is a round: the opponent's shape (A, B, C) and a second
    letter (X, Y, Z). Part 1 reads the second letter as our shape; part 2
    reads it as the outcome we must reach. A round scores the outcome
    (0, 3, 6) plus our shape (1, 2, 3). */
module RockPaperScissors {
  import opened Common
  import opened Text

  datatype Shape = Rock | Paper | Scissors

  datatype Outcome = Loss | Draw | Win

  /** `Outcome::score`. */
  function OutcomeScore(o: Outcome): (r: nat)
    ensures r == 0 || r == 3 || r == 6
    ensures o == Draw <==> r == 3
    ensures o == Win <==> r == 6
  {
    match o
    case Loss => 0
    case Draw => 3
    case Win => 6
  }

  /** `Shape::score_by_shape`. */
  function ShapeScore(s: Shape): (r: nat)
    ensures 1 <= r <= 3
  {
    match s
    case Rock => 1
    case Paper => 2
    case Scissors => 3
  }

  /** The shape that `s` defeats. */
  function Beats(s: Shape): Shape
  {
    match s
    case Rock => Scissors
    case Paper => Rock
    case Scissors => Paper
  }

  /** `Shape::score_against`: the outcome of playing `s` against `other`. */
  function ScoreAgainst(s: Shape, other: Shape): (r: Outcome)
    ensures r == Draw <==> s == other
    ensures r == Win <==> Beats(s) == other
    ensures r == Loss <==> Beats(other) == s
  {
    match (s, other)
    case (Rock, Rock) => Draw
    case (Rock, Paper) => Loss
    case (Rock, Scissors) => Win
    case (Paper, Rock) => Win
    case (Paper, Paper) => Draw
    case (Paper, Scissors) => Loss
    case (Scissors, Rock) => Loss
    case (Scissors, Paper) => Win
    case (Scissors, Scissors) => Draw
  }

  /** A win for one side is a loss for the other. */
  lemma WinIsLossForOther(a: Shape, b: Shape)
    ensures ScoreAgainst(a, b) == Win <==> ScoreAgainst(b, a) == Loss
  {
  }

  /** `Shape::needed_for`: the shape to play against `s` for `outcome`. */
  function NeededFor(s: Shape, outcome: Outcome): (r: Shape)
    ensures ScoreAgainst(r, s) == outcome
  {
    match (s, outcome)
    case (Rock, Loss) => Scissors
    case (Rock, Draw) => Rock
    case (Rock, Win) => Paper
    case (Paper, Loss) => Rock
    case (Paper, Draw) => Paper
    case (Paper, Win) => Scissors
    case (Scissors, Loss) => Paper
    case (Scissors, Draw) => Scissors
    case (Scissors, Win) => Rock
  }

  /** `NeededFor` is the only shape that reaches the outcome. */
  lemma NeededForUnique(s: Shape, mine: Shape)
    ensures NeededFor(s, ScoreAgainst(mine, s)) == mine
  {
  }

  /** The score of a round in which we play `mine` against `theirs`. */
  function RoundScore(theirs: Shape, mine: Shape): (r: nat)
    ensures 1 <= r <= 9
  {
    OutcomeScore(ScoreAgainst(mine, theirs)) + ShapeScore(mine)
  }

  function OpponentShape(token: string): Option<Shape>
  {
    if token == "A" then Some(Rock)
    else if token == "B" then Some(Paper)
    else if token == "C" then Some(Scissors)
    else None
  }

  function OpponentLetter(s: Shape): char
  {
    match s
    case Rock => 'A'
    case Paper => 'B'
    case Scissors => 'C'
  }

  function ResponseShape(token: string): Option<Shape>
  {
    if token == "X" then Some(Rock)
    else if token == "Y" then Some(Paper)
    else if token == "Z" then Some(Scissors)
    else None
  }

  function ResponseOutcome(token: string): Option<Outcome>
  {
    if token == "X" then Some(Loss)
    else if token == "Y" then Some(Draw)
    else if token == "Z" then Some(Win)
    else None
  }

  /** The X/Y/Z letter that stands for a shape in part 1 and for an
      outcome in part 2. */
  function SecondLetter(i: nat): char
    requires i < 3
  {
    if i == 0 then 'X' else if i == 1 then 'Y' else 'Z'
  }

  function ShapeIndex(s: Shape): nat
  {
    match s
    case Rock => 0
    case Paper => 1
    case Scissors => 2
  }

  function OutcomeIndex(o: Outcome): nat
  {
    match o
    case Loss => 0
    case Draw => 1
    case Win => 2
  }

  /** The line that stands for the round `theirs`, `mine` in part 1. */
  function ShapesLine(theirs: Shape, mine: Shape): string
  {
    [OpponentLetter(theirs), ' ', SecondLetter(ShapeIndex(mine))]
  }

  /** The line that stands for the round `theirs`, `outcome` in part 2. */
  function OutcomeLine(theirs: Shape, outcome: Outcome): string
  {
    [OpponentLetter(theirs), ' ', SecondLetter(OutcomeIndex(outcome))]
  }

  /** `parse_shapes`: "<A|B|C> <X|Y|Z>" split at the first space; any
      other line is `None` (the source's `unwrap` and `unreachable!`). */
  function ParseShapes(line: string): (r: Option<(Shape, Shape)>)
    ensures r.Some? ==> line == ShapesLine(r.value.0, r.value.1)
  {
    match SplitOnce(line, " ")
    case None => None
    case Some((left, right)) =>
      match (OpponentShape(left), ResponseShape(right))
      case (Some(a), Some(b)) => Some((a, b))
      case _ => None
  }

  /** `parse_shape_and_outcome`: the same grammar, with X/Y/Z read as
      loss/draw/win. */
  function ParseShapeAndOutcome(line: string): (r: Option<(Shape, Outcome)>)
    ensures r.Some? ==> line == OutcomeLine(r.value.0, r.value.1)
  {
    match SplitOnce(line, " ")
    case None => None
    case Some((left, right)) =>
      match (OpponentShape(left), ResponseOutcome(right))
      case (Some(a), Some(o)) => Some((a, o))
      case _ => None
  }

  /** Every well-formed line is read back as the round it stands for. */
  lemma ParseShapesLine(theirs: Shape, mine: Shape)
    ensures ParseShapes(ShapesLine(theirs, mine)) == Some((theirs, mine))
  {
    var line := ShapesLine(theirs, mine);
    SplitLine(line);
    LetterShapes(theirs, mine);
  }

  lemma ParseShapeAndOutcomeLine(theirs: Shape, outcome: Outcome)
    ensures ParseShapeAndOutcome(OutcomeLine(theirs, outcome)) == Some((theirs, outcome))
  {
    var line := OutcomeLine(theirs, outcome);
    SplitLine(line);
    LetterOutcome(theirs, outcome);
  }

  /** A three-character line with a space in the middle splits around it. */
  lemma SplitLine(line: string)
    requires |line| == 3 && line[1] == ' ' && line[0] != ' '
    ensures SplitOnce(line, " ") == Some(([line[0]], [line[2]]))
  {
    SplitOnceAt(line, ' ', 1);
    assert line[..1] == [line[0]] && line[2..] == [line[2]];
  }

  /** The letters of a part-1 round name its shapes. */
  lemma LetterShapes(theirs: Shape, mine: Shape)
    ensures OpponentShape([OpponentLetter(theirs)]) == Some(theirs)
    ensures ResponseShape([SecondLetter(ShapeIndex(mine))]) == Some(mine)
  {
  }

  /** The letters of a part-2 round name its shape and outcome. */
  lemma LetterOutcome(theirs: Shape, outcome: Outcome)
    ensures OpponentShape([OpponentLetter(theirs)]) == Some(theirs)
    ensures ResponseOutcome([SecondLetter(OutcomeIndex(outcome))]) == Some(outcome)
  {
  }

  /** `lines().map(parse_shapes)`: every line read as a round, or `None`
      as soon as one line is not one. */
  function ParseGuide1(lines: seq<string>): (r: Option<seq<(Shape, Shape)>>)
    ensures r.Some? <==> forall i :: 0 <= i < |lines| ==> ParseShapes(lines[i]).Some?
    ensures r.Some? ==> |r.value| == |lines| && forall i :: 0 <= i < |lines| ==> ParseShapes(lines[i]) == Some(r.value[i])
  {
    if lines == [] then Some([])
    else
      match (ParseShapes(lines[0]), ParseGuide1(lines[1..]))
      case (Some(round), Some(rest)) => Some([round] + rest)
      case _ => None
  }

  /** `lines().map(parse_shape_and_outcome)`. */
  function ParseGuide2(lines: seq<string>): (r: Option<seq<(Shape, Outcome)>>)
    ensures r.Some? <==> forall i :: 0 <= i < |lines| ==> ParseShapeAndOutcome(lines[i]).Some?
    ensures r.Some? ==> |r.value| == |lines| && forall i :: 0 <= i < |lines| ==> ParseShapeAndOutcome(lines[i]) == Some(r.value[i])
  {
    if lines == [] then Some([])
    else
      match (ParseShapeAndOutcome(lines[0]), ParseGuide2(lines[1..]))
      case (Some(round), Some(rest)) => Some([round] + rest)
      case _ => None
  }

  /** The part-1 score of a sequence of rounds: the sum of the round
      scores. Every round scores between 1 and 9, so n rounds score between
      n and 9n. */
  function Score1(rounds: seq<(Shape, Shape)>): (n: nat)
    ensures |rounds| <= n <= 9 * |rounds|
  {
    if rounds == [] then 0 else RoundScore(rounds[0].0, rounds[0].1) + Score1(rounds[1..])
  }

  /** The part-2 score: each round scores its outcome plus the shape
      `NeededFor` picks, again between n and 9n for n rounds. */
  function Score2(rounds: seq<(Shape, Outcome)>): (n: nat)
    ensures |rounds| <= n <= 9 * |rounds|
  {
    if rounds == [] then 0
    else OutcomeScore(rounds[0].1) + ShapeScore(NeededFor(rounds[0].0, rounds[0].1)) + Score2(rounds[1..])
  }

  /** Part 1: the total score when X/Y/Z name our shape, or `None` when a
      line is not a round. */
  function TotalScore1(lines: seq<string>): (r: Option<nat>)
    ensures r.Some? <==> forall i :: 0 <= i < |lines| ==> ParseShapes(lines[i]).Some?
    ensures r.Some? ==> |lines| <= r.value <= 9 * |lines|
  {
    match ParseGuide1(lines)
    case None => None
    case Some(rounds) => Some(Score1(rounds))
  }

  /** Part 2: the total score when X/Y/Z name the outcome to reach. */
  function TotalScore2(lines: seq<string>): (r: Option<nat>)
    ensures r.Some? <==> forall i :: 0 <= i < |lines| ==> ParseShapeAndOutcome(lines[i]).Some?
    ensures r.Some? ==> |lines| <= r.value <= 9 * |lines|
  {
    match ParseGuide2(lines)
    case None => None
    case Some(rounds) => Some(Score2(rounds))
  }

  /** `part_1`: the guide read line by line and scored. */
  function Part1(input: string): (r: Option<nat>)
    ensures r.Some? <==> forall i :: 0 <= i < |Lines(input)| ==> ParseShapes(Lines(input)[i]).Some?
    ensures r.Some? ==> |Lines(input)| <= r.value <= 9 * |Lines(input)|
  {
    TotalScore1(Lines(input))
  }

  /** `part_2`. */
  function Part2(input: string): (r: Option<nat>)
    ensures r.Some? <==> forall i :: 0 <= i < |Lines(input)| ==> ParseShapeAndOutcome(Lines(input)[i]).Some?
    ensures r.Some? ==> |Lines(input)| <= r.value <= 9 * |Lines(input)|
  {
    TotalScore2(Lines(input))
  }

  /** In part 2 each round scores exactly what part 1 would score for the
      shape that `NeededFor` picks. */
  lemma Part2RoundIsPart1Round(theirs: Shape, outcome: Outcome)
    ensures OutcomeScore(outcome) + ShapeScore(NeededFor(theirs, outcome)) == RoundScore(theirs, NeededFor(theirs, outcome))
  {
  }

  lemma SampleGuideLines()
    ensures Lines("A Y\nB X\nC Z") == ["A Y", "B X", "C Z"]
  {
    var lines := ["A Y", "B X", "C Z"];
    assert Join(lines, "\n") == "A Y\nB X\nC Z" by {
      assert lines[1..] == ["B X", "C Z"] && lines[1..][1..] == ["C Z"];
    }
    LinesJoin(lines);
  }

  /** The guide lines that stand for part-1 rounds. */
  function Guide1(rounds: seq<(Shape, Shape)>): seq<string>
  {
    seq(|rounds|, i requires 0 <= i < |rounds| => ShapesLine(rounds[i].0, rounds[i].1))
  }

  /** The guide lines that stand for part-2 rounds. */
  function Guide2(rounds: seq<(Shape, Outcome)>): seq<string>
  {
    seq(|rounds|, i requires 0 <= i < |rounds| => OutcomeLine(rounds[i].0, rounds[i].1))
  }

  /** A guide written out from rounds is read back as those rounds. */
  lemma ParseGuide1OfGuide(rounds: seq<(Shape, Shape)>)
    ensures ParseGuide1(Guide1(rounds)) == Some(rounds)
  {
    var lines := Guide1(rounds);
    forall i | 0 <= i < |lines|
      ensures ParseShapes(lines[i]) == Some(rounds[i])
    {
      ParseShapesLine(rounds[i].0, rounds[i].1);
      assert rounds[i] == (rounds[i].0, rounds[i].1);
    }
    var parsed := ParseGuide1(lines).value;
    assert parsed == rounds by {
      forall i | 0 <= i < |rounds|
        ensures parsed[i] == rounds[i]
      {
        assert ParseShapes(lines[i]) == Some(parsed[i]);
      }
    }
  }

  lemma ParseGuide2OfGuide(rounds: seq<(Shape, Outcome)>)
    ensures ParseGuide2(Guide2(rounds)) == Some(rounds)
  {
    var lines := Guide2(rounds);
    forall i | 0 <= i < |lines|
      ensures ParseShapeAndOutcome(lines[i]) == Some(rounds[i])
    {
      ParseShapeAndOutcomeLine(rounds[i].0, rounds[i].1);
      assert rounds[i] == (rounds[i].0, rounds[i].1);
    }
    var parsed := ParseGuide2(lines).value;
    assert parsed == rounds by {
      forall i | 0 <= i < |rounds|
        ensures parsed[i] == rounds[i]
      {
        assert ParseShapeAndOutcome(lines[i]) == Some(parsed[i]);
      }
    }
  }

  /** A guide is scored round by round. */
  lemma TotalScore1OfGuide(rounds: seq<(Shape, Shape)>)
    ensures TotalScore1(Guide1(rounds)) == Some(Score1(rounds))
  {
    ParseGuide1OfGuide(rounds);
  }

  lemma TotalScore2OfGuide(rounds: seq<(Shape, Outcome)>)
    ensures TotalScore2(Guide2(rounds)) == Some(Score2(rounds))
  {
    ParseGuide2OfGuide(rounds);
  }

  /** A guide printed one round per line is scored round by round by both
      parts. */
  lemma PartsOfPrintedGuide(rounds1: seq<(Shape, Shape)>, rounds2: seq<(Shape, Outcome)>)
    requires |rounds1| > 0 && |rounds2| > 0
    ensures Part1(Join(Guide1(rounds1), "\n")) == Some(Score1(rounds1))
    ensures Part2(Join(Guide2(rounds2), "\n")) == Some(Score2(rounds2))
  {
    LinesJoin(Guide1(rounds1));
    LinesJoin(Guide2(rounds2));
    TotalScore1OfGuide(rounds1);
    TotalScore2OfGuide(rounds2);
  }

  lemma SampleGuideScores1()
    ensures TotalScore1(["A Y", "B X", "C Z"]) == Some(15)
  {
    var rounds := [(Rock, Paper), (Paper, Rock), (Scissors, Scissors)];
    assert rounds[1..] == [(Paper, Rock), (Scissors, Scissors)] && rounds[1..][1..] == [(Scissors, Scissors)];
    assert Guide1(rounds) == ["A Y", "B X", "C Z"];
    assert Score1(rounds) == 15;
    TotalScore1OfGuide(rounds);
  }

  lemma SampleGuideScores2()
    ensures TotalScore2(["A Y", "B X", "C Z"]) == Some(12)
  {
    var rounds := [(Rock, Draw), (Paper, Loss), (Scissors, Win)];
    assert rounds[1..] == [(Paper, Loss), (Scissors, Win)] && rounds[1..][1..] == [(Scissors, Win)];
    assert Guide2(rounds) == ["A Y", "B X", "C Z"];
    assert Score2(rounds) == 12;
    TotalScore2OfGuide(rounds);
  }

  /** The guide "A Y / B X / C Z" scores 15 under part 1 and 12 under part 2. */
  lemma SampleGuide()
    ensures Part1("A Y\nB X\nC Z") == Some(15)
    ensures Part2("A Y\nB X\nC Z") == Some(12)
  {
    SampleGuideLines();
    SampleGuideScores1();
    SampleGuideScores2();
  }
}
