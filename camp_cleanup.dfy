/** Camp cleanup (day-04/src/main.rs). Each line assigns two elves an
    inclusive range of section numbers, written `l-u,l-u`. Part 1 counts
    the pairs in which one range contains the other; part 2 counts the
    pairs whose ranges overlap. */
module CampCleanup {
  import opened Common
  import opened Text

  /** `RangeInclusive<usize>`: the sections `lo..=hi`. A range with
      `lo > hi` is empty. */
  datatype Range = Range(lo: nat, hi: nat)

  predicate WellFormed(r: Range)
  {
    r.lo <= r.hi
  }

  /** Section `x` lies in `r`. */
  predicate In(x: int, r: Range)
  {
    r.lo <= x <= r.hi
  }

  /** `parse_range`: "<digits>-<digits>" split at the first '-'; `None`
      when there is no '-' or a bound is not a number. */
  function ParseRange(s: string): (r: Option<Range>)
    ensures r.Some? ==> '-' in s
  {
    match SplitOnce(s, "-")
    case None => None
    case Some((lower, upper)) =>
      assert s[|lower|] == '-';
      match (ParseNat(lower), ParseNat(upper))
      case (Some(lo), Some(hi)) => Some(Range(lo, hi))
      case _ => None
  }

  /** What `ParseRange` accepts: a number, the first '-', and a number. */
  lemma ParseRangeMeaning(s: string)
    ensures ParseRange(s).Some? <==> exists i :: 0 <= i < |s| && s[i] == '-' && '-' !in s[..i]
                                      && ParseNat(s[..i]).Some? && ParseNat(s[i + 1..]).Some?
    ensures ParseRange(s).Some? ==> exists i :: 0 <= i < |s| && s[i] == '-' && '-' !in s[..i]
                                      && ParseNat(s[..i]) == Some(ParseRange(s).value.lo)
                                      && ParseNat(s[i + 1..]) == Some(ParseRange(s).value.hi)
  {
    FirstSeparator(s, '-');
  }

  /** The text of a range, as the puzzle writes it. */
  function RangeText(r: Range): string
  {
    NatToString(r.lo) + "-" + NatToString(r.hi)
  }

  lemma NoDashInDigits(s: string)
    requires AllDigits(s)
    ensures '-' !in s && ',' !in s && '\n' !in s
  {
  }

  /** A range written out is read back. */
  lemma ParseRangeText(r: Range)
    ensures ParseRange(RangeText(r)) == Some(r)
  {
    var lo, hi := NatToString(r.lo), NatToString(r.hi);
    var s := RangeText(r);
    NoDashInDigits(lo);
    assert s[..|lo|] == lo && s[|lo| + 1..] == hi;
    SplitOnceAt(s, '-', |lo|);
    ParseNatToString(r.lo);
    ParseNatToString(r.hi);
  }

  /** `parse_ranges`: two ranges split at the first ','; `None` when there
      is no ',' or a range does not parse. */
  function ParseRanges(line: string): (r: Option<(Range, Range)>)
    ensures r.Some? ==> ',' in line
  {
    match SplitOnce(line, ",")
    case None => None
    case Some((left, right)) =>
      assert line[|left|] == ',';
      match (ParseRange(left), ParseRange(right))
      case (Some(a), Some(b)) => Some((a, b))
      case _ => None
  }

  /** What `ParseRanges` accepts: a range, the first ',', and a range. */
  lemma ParseRangesMeaning(line: string)
    ensures ParseRanges(line).Some? <==> exists i :: 0 <= i < |line| && line[i] == ',' && ',' !in line[..i]
                                          && ParseRange(line[..i]).Some? && ParseRange(line[i + 1..]).Some?
    ensures ParseRanges(line).Some? ==> exists i :: 0 <= i < |line| && line[i] == ',' && ',' !in line[..i]
                                          && ParseRange(line[..i]) == Some(ParseRanges(line).value.0)
                                          && ParseRange(line[i + 1..]) == Some(ParseRanges(line).value.1)
  {
    FirstSeparator(line, ',');
  }

  /** The line that stands for a pair of ranges. */
  function PairText(a: Range, b: Range): string
  {
    RangeText(a) + "," + RangeText(b)
  }

  /** A pair written out is read back. */
  lemma ParseRangesText(a: Range, b: Range)
    ensures ParseRanges(PairText(a, b)) == Some((a, b))
  {
    var left, right := RangeText(a), RangeText(b);
    var s := PairText(a, b);
    NoDashInDigits(NatToString(a.lo));
    NoDashInDigits(NatToString(a.hi));
    assert ',' !in left;
    assert s[..|left|] == left && s[|left| + 1..] == right;
    SplitOnceAt(s, ',', |left|);
    ParseRangeText(a);
    ParseRangeText(b);
  }

  /** Every section of `inner` is a section of `outer`. */
  ghost predicate Covers(outer: Range, inner: Range)
  {
    forall x :: In(x, inner) ==> In(x, outer)
  }

  /** For well-formed ranges, comparing bounds is comparing sections. */
  lemma CoversIffBounds(outer: Range, inner: Range)
    requires WellFormed(inner)
    ensures Covers(outer, inner) <==> outer.lo <= inner.lo && inner.hi <= outer.hi
  {
    if Covers(outer, inner) {
      assert In(inner.lo, inner) && In(inner.hi, inner);
    }
  }

  /** `one_is_fully_contained`: the bounds of one range enclose the other's,
      which for well-formed ranges means that one range's sections are all
      in the other. */
  function OneIsFullyContained(a: Range, b: Range): (r: bool)
    ensures WellFormed(a) && WellFormed(b) ==> (r <==> Covers(a, b) || Covers(b, a))
  {
    assert WellFormed(a) && WellFormed(b) ==> In(a.lo, a) && In(a.hi, a) && In(b.lo, b) && In(b.hi, b);
    (a.lo <= b.lo && a.hi >= b.hi) || (b.lo <= a.lo && b.hi >= a.hi)
  }

  lemma OneIsFullyContainedSymmetric(a: Range, b: Range)
    ensures OneIsFullyContained(a, b) == OneIsFullyContained(b, a)
  {
  }

  /** `do_overlap`, branch for branch. */
  function DoOverlap(a: Range, b: Range): (r: bool)
    ensures r <==> a.lo <= b.hi && b.lo <= a.hi
  {
    if a.lo <= b.hi then a.hi >= b.lo else b.hi >= a.lo
  }

  lemma DoOverlapSymmetric(a: Range, b: Range)
    ensures DoOverlap(a, b) == DoOverlap(b, a)
  {
  }

  /** For well-formed ranges, overlapping means sharing a section. */
  lemma DoOverlapMeaning(a: Range, b: Range)
    requires WellFormed(a) && WellFormed(b)
    ensures DoOverlap(a, b) <==> exists x :: In(x, a) && In(x, b)
  {
    if DoOverlap(a, b) {
      var x := if a.lo <= b.lo then b.lo else a.lo;
      assert In(x, a) && In(x, b);
    }
  }

  /** A range inside another overlaps it, provided the inner one is not
      empty. */
  lemma ContainedOverlaps(a: Range, b: Range)
    requires WellFormed(a) && WellFormed(b)
    requires OneIsFullyContained(a, b)
    ensures DoOverlap(a, b)
  {
  }

  /** The pairs of all lines, or `None` when a line does not parse (the
      source's `expect` and `unwrap`). */
  function ParseAll(lines: seq<string>): (r: Option<seq<(Range, Range)>>)
    ensures r.Some? <==> forall i :: 0 <= i < |lines| ==> ParseRanges(lines[i]).Some?
    ensures r.Some? ==> |r.value| == |lines|
    ensures r.Some? ==> forall i :: 0 <= i < |lines| ==> ParseRanges(lines[i]) == Some(r.value[i])
  {
    if lines == [] then Some([])
    else
      match (ParseRanges(lines[0]), ParseAll(lines[1..]))
      case (Some(p), Some(ps)) => Some([p] + ps)
      case _ => None
  }

  /** The positions of the pairs in which one range contains the other. */
  ghost function ContainedIndices(pairs: seq<(Range, Range)>): set<int>
  {
    set i | 0 <= i < |pairs| && OneIsFullyContained(pairs[i].0, pairs[i].1)
  }

  /** The positions of the overlapping pairs. */
  ghost function OverlappingIndices(pairs: seq<(Range, Range)>): set<int>
  {
    set i | 0 <= i < |pairs| && DoOverlap(pairs[i].0, pairs[i].1)
  }

  /** `filter(one_is_fully_contained).count()`: the number of pairs in
      which one range contains the other. */
  function CountContained(pairs: seq<(Range, Range)>): (n: nat)
    ensures n == |ContainedIndices(pairs)|
    ensures n <= |pairs|
  {
    if pairs == [] then 0
    else
      var init, last := pairs[..|pairs| - 1], pairs[|pairs| - 1];
      assert ContainedIndices(pairs)
          == ContainedIndices(init) + (if OneIsFullyContained(last.0, last.1) then {|init|} else {}) by {
        assert forall i :: 0 <= i < |init| ==> init[i] == pairs[i];
      }
      CountContained(init) + (if OneIsFullyContained(last.0, last.1) then 1 else 0)
  }

  /** `filter(do_overlap).count()`: the number of overlapping pairs. */
  function CountOverlapping(pairs: seq<(Range, Range)>): (n: nat)
    ensures n == |OverlappingIndices(pairs)|
    ensures n <= |pairs|
  {
    if pairs == [] then 0
    else
      var init, last := pairs[..|pairs| - 1], pairs[|pairs| - 1];
      assert OverlappingIndices(pairs)
          == OverlappingIndices(init) + (if DoOverlap(last.0, last.1) then {|init|} else {}) by {
        assert forall i :: 0 <= i < |init| ==> init[i] == pairs[i];
      }
      CountOverlapping(init) + (if DoOverlap(last.0, last.1) then 1 else 0)
  }

  predicate AllWellFormed(pairs: seq<(Range, Range)>)
  {
    forall i :: 0 <= i < |pairs| ==> WellFormed(pairs[i].0) && WellFormed(pairs[i].1)
  }

  /** With well-formed ranges, every contained pair is an overlapping one. */
  lemma {:induction false} ContainedAtMostOverlapping(pairs: seq<(Range, Range)>)
    requires AllWellFormed(pairs)
    ensures CountContained(pairs) <= CountOverlapping(pairs)
  {
    if pairs != [] {
      var init, last := pairs[..|pairs| - 1], pairs[|pairs| - 1];
      if OneIsFullyContained(last.0, last.1) {
        ContainedOverlaps(last.0, last.1);
      }
      assert AllWellFormed(init) by {
        forall i | 0 <= i < |init|
          ensures WellFormed(init[i].0) && WellFormed(init[i].1)
        {
          assert init[i] == pairs[i];
        }
      }
      ContainedAtMostOverlapping(init);
    }
  }

  /** Part 1. */
  function Part1(input: string): (r: Option<nat>)
    ensures r.Some? <==> ParseAll(Lines(input)).Some?
    ensures r.Some? ==> r.value == |ContainedIndices(ParseAll(Lines(input)).value)|
    ensures r.Some? ==> r.value <= |Lines(input)|
  {
    match ParseAll(Lines(input))
    case None => None
    case Some(pairs) => Some(CountContained(pairs))
  }

  /** Part 2. */
  function Part2(input: string): (r: Option<nat>)
    ensures r.Some? <==> ParseAll(Lines(input)).Some?
    ensures r.Some? ==> r.value == |OverlappingIndices(ParseAll(Lines(input)).value)|
    ensures r.Some? ==> r.value <= |Lines(input)|
  {
    match ParseAll(Lines(input))
    case None => None
    case Some(pairs) => Some(CountOverlapping(pairs))
  }

  /** On well-formed input, part 1 never exceeds part 2. */
  lemma Part1AtMostPart2(input: string)
    requires ParseAll(Lines(input)).Some?
    requires AllWellFormed(ParseAll(Lines(input)).value)
    ensures Part1(input).value <= Part2(input).value
  {
    ContainedAtMostOverlapping(ParseAll(Lines(input)).value);
  }

  /** The source accepts a reversed range such as "5-3", and on one the
      ordering of the parts fails: the pair 5..=3 and 4..=4 counts as
      contained, as its bounds enclose the other's, but not as
      overlapping. */
  lemma ReversedRangeCounts()
    ensures CountContained([(Range(5, 3), Range(4, 4))]) == 1
    ensures CountOverlapping([(Range(5, 3), Range(4, 4))]) == 0
    ensures Part1("5-3,4-4") == Some(1)
    ensures Part2("5-3,4-4") == Some(0)
  {
    var pairs := [(Range(5, 3), Range(4, 4))];
    assert pairs[..0] == [];
    assert PairText(Range(5, 3), Range(4, 4)) == "5-3,4-4";
    assert Join(PairLines(pairs), "\n") == "5-3,4-4";
    Part1OfPairLines(pairs);
    Part2OfPairLines(pairs);
  }

  lemma ParseSamples()
    ensures ParseRange("2-4") == Some(Range(2, 4))
    ensures ParseRanges("2-4,6-8") == Some((Range(2, 4), Range(6, 8)))
  {
    assert RangeText(Range(2, 4)) == "2-4";
    ParseRangeText(Range(2, 4));
    assert PairText(Range(2, 4), Range(6, 8)) == "2-4,6-8";
    ParseRangesText(Range(2, 4), Range(6, 8));
  }

  lemma PredicateSamples()
    ensures OneIsFullyContained(Range(2, 8), Range(3, 7))
    ensures OneIsFullyContained(Range(6, 6), Range(4, 6))
    ensures !DoOverlap(Range(2, 4), Range(6, 8))
    ensures DoOverlap(Range(5, 7), Range(7, 9))
  {
  }

  /** The lines that stand for a sequence of pairs. */
  function PairLines(pairs: seq<(Range, Range)>): (r: seq<string>)
    ensures |r| == |pairs|
    ensures forall i :: 0 <= i < |pairs| ==> r[i] == PairText(pairs[i].0, pairs[i].1)
  {
    if pairs == [] then [] else [PairText(pairs[0].0, pairs[0].1)] + PairLines(pairs[1..])
  }

  /** Pairs written out line by line are read back. */
  lemma ParseAllPairLines(pairs: seq<(Range, Range)>)
    ensures ParseAll(PairLines(pairs)) == Some(pairs)
  {
    var lines := PairLines(pairs);
    forall i | 0 <= i < |lines|
      ensures ParseRanges(lines[i]) == Some(pairs[i])
    {
      ParseRangesText(pairs[i].0, pairs[i].1);
    }
    var parsed := ParseAll(lines).value;
    assert |parsed| == |pairs|;
    assert forall i :: 0 <= i < |pairs| ==> parsed[i] == pairs[i];
    assert parsed == pairs;
  }

  /** The text of a pair is a single non-empty line. */
  lemma PairTextIsLine(a: Range, b: Range)
    ensures PairText(a, b) != [] && '\n' !in PairText(a, b)
  {
    NoDashInDigits(NatToString(a.lo));
    NoDashInDigits(NatToString(a.hi));
    NoDashInDigits(NatToString(b.lo));
    NoDashInDigits(NatToString(b.hi));
  }

  /** Pairs printed one per line read back as themselves. */
  lemma LinesOfPairLines(pairs: seq<(Range, Range)>)
    requires |pairs| > 0
    ensures ParseAll(Lines(Join(PairLines(pairs), "\n"))) == Some(pairs)
  {
    var lines := PairLines(pairs);
    forall i | 0 <= i < |lines|
      ensures lines[i] != [] && '\n' !in lines[i]
    {
      PairTextIsLine(pairs[i].0, pairs[i].1);
    }
    LinesJoin(lines);
    ParseAllPairLines(pairs);
  }

  /** Part 1 of pairs printed one per line is the number of contained
      pairs. */
  lemma Part1OfPairLines(pairs: seq<(Range, Range)>)
    requires |pairs| > 0
    ensures Part1(Join(PairLines(pairs), "\n")) == Some(CountContained(pairs))
  {
    LinesOfPairLines(pairs);
  }

  /** Part 2 of pairs printed one per line is the number of overlapping
      pairs. */
  lemma Part2OfPairLines(pairs: seq<(Range, Range)>)
    requires |pairs| > 0
    ensures Part2(Join(PairLines(pairs), "\n")) == Some(CountOverlapping(pairs))
  {
    LinesOfPairLines(pairs);
  }

  const SamplePairs := [(Range(2, 4), Range(6, 8)), (Range(2, 3), Range(4, 5)), (Range(5, 7), Range(7, 9)),
                        (Range(2, 8), Range(3, 7)), (Range(6, 6), Range(4, 6)), (Range(2, 6), Range(4, 8))]

  const SampleLines := ["2-4,6-8", "2-3,4-5", "5-7,7-9", "2-8,3-7", "6-6,4-6", "2-6,4-8"]

  /** The sample assignment list, one pair per line. */
  const SampleInput := Join(SampleLines, "\n")

  lemma SampleLinesArePairs()
    ensures PairLines(SamplePairs) == SampleLines
  {
    var p := SamplePairs;
    assert PairText(p[0].0, p[0].1) == SampleLines[0];
    assert PairText(p[1].0, p[1].1) == SampleLines[1];
    assert PairText(p[2].0, p[2].1) == SampleLines[2];
    assert PairText(p[3].0, p[3].1) == SampleLines[3];
    assert PairText(p[4].0, p[4].1) == SampleLines[4];
    assert PairText(p[5].0, p[5].1) == SampleLines[5];
  }

  lemma SampleInputLines()
    ensures Lines(SampleInput) == SampleLines
  {
    LinesJoin(SampleLines);
  }

  lemma SampleParsed()
    ensures ParseAll(Lines(SampleInput)) == Some(SamplePairs)
  {
    SampleInputLines();
    SampleLinesArePairs();
    ParseAllPairLines(SamplePairs);
  }

  lemma SampleCounts()
    ensures CountContained(SamplePairs) == 2
    ensures CountOverlapping(SamplePairs) == 4
  {
    var p := SamplePairs;
    assert p[..1][..0] == [] && p[..2][..1] == p[..1] && p[..3][..2] == p[..2];
    assert p[..4][..3] == p[..3] && p[..5][..4] == p[..4] && p[..5] == p[..|p| - 1];
    assert CountContained(p[..3]) == 0 && CountOverlapping(p[..3]) == 1;
    assert CountContained(p[..5]) == 2 && CountOverlapping(p[..5]) == 3;
  }

  /** The sample gives 2 for part 1 and 4 for part 2. */
  lemma SampleParts()
    ensures Part1(SampleInput) == Some(2)
    ensures Part2(SampleInput) == Some(4)
  {
    SampleParsed();
    SampleCounts();
  }
}
