/** Calorie counting (src/bin/day_1.rs): the input lists, elf by elf, the
    calories of the items each elf carries, one number per line, with a
    blank line between elves. Part 1 is the largest elf total; part 2 is
    the sum of the three largest totals. */
module Calories {
  import opened Common
  import opened Text

  /** The numbers on `lines`, or `None` when one of them is not a number
      (the source's `parse::<usize>().unwrap()`). */
  function ParseItems(lines: seq<string>): (r: Option<seq<nat>>)
    ensures r.Some? <==> forall i :: 0 <= i < |lines| ==> ParseNat(lines[i]).Some?
    ensures r.Some? ==> |r.value| == |lines|
    ensures r.Some? ==> forall i :: 0 <= i < |lines| ==> ParseNat(lines[i]) == Some(r.value[i])
  {
    if lines == [] then Some([])
    else
      match ParseNat(lines[0])
      case None => None
      case Some(n) =>
        match ParseItems(lines[1..])
        case None => None
        case Some(ns) => Some([n] + ns)
  }

  /** The blank-line-separated groups of the input. */
  function Groups(input: string): (r: seq<string>)
    ensures |r| > 0
  {
    Split(input, "\n\n")
  }

  /** The calorie total of each group, in input order. */
  function ElfTotals(input: string): (r: Option<seq<nat>>)
    ensures r.Some? ==> |r.value| == |Groups(input)|
  {
    TotalsOf(Groups(input))
  }

  function TotalsOf(groups: seq<string>): (r: Option<seq<nat>>)
    ensures r.Some? <==> forall i :: 0 <= i < |groups| ==> ParseItems(Lines(groups[i])).Some?
    ensures r.Some? ==> |r.value| == |groups|
    ensures r.Some? ==> forall i :: 0 <= i < |groups| ==> r.value[i] == Sum(ParseItems(Lines(groups[i])).value)
  {
    if groups == [] then Some([])
    else
      match ParseItems(Lines(groups[0]))
      case None => None
      case Some(items) =>
        match TotalsOf(groups[1..])
        case None => None
        case Some(ts) => Some([Sum(items)] + ts)
  }

  /** The largest element of a non-empty sequence (`Iterator::max`). */
  function Max(s: seq<nat>): (m: nat)
    requires |s| > 0
    ensures m in s
    ensures forall i :: 0 <= i < |s| ==> s[i] <= m
  {
    if |s| == 1 then s[0]
    else
      var rest := Max(s[1..]);
      if s[0] >= rest then s[0] else rest
  }

  /** Part 1: the largest elf total. The source's `max().unwrap()` cannot
      fail, because splitting always yields at least one group. */
  function Part1(input: string): (r: Option<nat>)
    ensures r.Some? <==> ElfTotals(input).Some?
    ensures r.Some? ==> r.value in ElfTotals(input).value
    ensures r.Some? ==> forall t :: t in ElfTotals(input).value ==> t <= r.value
  {
    match ElfTotals(input)
    case None => None
    case Some(totals) => Some(Max(totals))
  }

  predicate SortedAscending(s: seq<nat>)
  {
    forall i, j :: 0 <= i < j < |s| ==> s[i] <= s[j]
  }

  /** `x` put into its place in the ascending sequence `s`. */
  function Insert(x: nat, s: seq<nat>): (r: seq<nat>)
    requires SortedAscending(s)
    ensures SortedAscending(r)
    ensures |r| == |s| + 1
    ensures multiset(r) == multiset(s) + multiset{x}
  {
    if s == [] || x <= s[0] then [x] + s
    else
      var t := Insert(x, s[1..]);
      assert s == [s[0]] + s[1..];
      BoundOfElements(t, s[1..], x, s[0]);
      [s[0]] + t
  }

  /** A sequence holding the elements of `u` and `x`, all at least `lo`,
      has only elements at least `lo`. */
  lemma BoundOfElements(t: seq<nat>, u: seq<nat>, x: nat, lo: nat)
    requires multiset(t) == multiset(u) + multiset{x}
    requires lo <= x && forall k :: 0 <= k < |u| ==> lo <= u[k]
    ensures forall k :: 0 <= k < |t| ==> lo <= t[k]
  {
    forall k | 0 <= k < |t|
      ensures lo <= t[k]
    {
      assert t[k] in multiset(t);
      if t[k] != x {
        assert t[k] in multiset(u);
        var j :| 0 <= j < |u| && u[j] == t[k];
      }
    }
  }

  /** The reference ascending order of `s` (what `Vec::sort` leaves). */
  function SortAscending(s: seq<nat>): (r: seq<nat>)
    ensures SortedAscending(r)
    ensures |r| == |s|
    ensures multiset(r) == multiset(s)
  {
    if s == [] then []
    else
      assert s == [s[0]] + s[1..];
      Insert(s[0], SortAscending(s[1..]))
  }

  /** Two ascending sequences with the same elements are equal, so any
      sort's result is `SortAscending`. */
  lemma {:induction false} SortedUnique(a: seq<nat>, b: seq<nat>)
    requires SortedAscending(a) && SortedAscending(b)
    requires multiset(a) == multiset(b)
    ensures a == b
  {
    if a == [] {
      assert |multiset(b)| == 0;
    } else {
      SameHeads(a, b);
      SortedUnique(a[1..], b[1..]);
      assert a == [a[0]] + a[1..] && b == [b[0]] + b[1..];
    }
  }

  /** Two non-empty ascending sequences with the same elements start alike
      and go on with the same elements. */
  lemma SameHeads(a: seq<nat>, b: seq<nat>)
    requires SortedAscending(a) && SortedAscending(b)
    requires multiset(a) == multiset(b) && a != []
    ensures b != [] && a[0] == b[0]
    ensures SortedAscending(a[1..]) && SortedAscending(b[1..])
    ensures multiset(a[1..]) == multiset(b[1..])
  {
    assert |multiset(b)| == |a|;
    HeadInMultiset(a);
    HeadInMultiset(b);
    SortedHeadIsLeast(a, b[0]);
    SortedHeadIsLeast(b, a[0]);
    MultisetTail(a);
    MultisetTail(b);
  }

  lemma HeadInMultiset(s: seq<nat>)
    requires s != []
    ensures s[0] in multiset(s)
  {
  }

  /** Dropping the first element removes one occurrence of it. */
  lemma MultisetTail(s: seq<nat>)
    requires s != []
    ensures multiset(s[1..]) == multiset(s) - multiset{s[0]}
  {
    assert s == [s[0]] + s[1..];
  }

  /** The first element of an ascending sequence is at most any of its elements. */
  lemma SortedHeadIsLeast(s: seq<nat>, x: nat)
    requires SortedAscending(s) && x in multiset(s)
    ensures s[0] <= x
  {
    var i :| 0 <= i < |s| && s[i] == x;
    assert s[0] <= s[i];
  }

  /** Part 2's value: the totals sorted ascending, reversed so that the
      largest comes first, and the first three (or all, if fewer) summed. */
  function TopThreeTotal(totals: seq<nat>): nat
  {
    var descending := Reverse(SortAscending(totals));
    Sum(descending[..Min(3, |totals|)])
  }

  method Swap(a: array<nat>, i: nat, j: nat)
    requires i < a.Length && j < a.Length
    modifies a
    ensures a[i] == old(a[j]) && a[j] == old(a[i])
    ensures forall k :: 0 <= k < a.Length && k != i && k != j ==> a[k] == old(a[k])
    ensures multiset(a[..]) == old(multiset(a[..]))
  {
    a[i], a[j] := a[j], a[i];
  }

  /** The in-place sort (`elves.sort()`), by insertion. */
  method Sort(a: array<nat>)
    modifies a
    ensures SortedAscending(a[..])
    ensures multiset(a[..]) == old(multiset(a[..]))
  {
    if a.Length == 0 {
      return;
    }
    var i := 1;
    while i < a.Length
      invariant 1 <= i <= a.Length
      invariant SortedAscending(a[..i])
      invariant multiset(a[..]) == old(multiset(a[..]))
    {
      var j := i;
      while 0 < j && a[j] < a[j - 1]
        invariant 0 <= j <= i
        invariant forall p, q :: 0 <= p < q <= i && q != j ==> a[p] <= a[q]
        invariant 0 < j < i ==> a[j - 1] <= a[j + 1]
        invariant multiset(a[..]) == old(multiset(a[..]))
      {
        Swap(a, j - 1, j);
        j := j - 1;
      }
      i := i + 1;
    }
    assert a[..] == a[..i];
  }

  /** Part 2: collects the elf totals into a vector, sorts it in place and
      sums the three largest. */
  method Part2(input: string) returns (r: Option<nat>)
    ensures r.Some? <==> ElfTotals(input).Some?
    ensures r.Some? ==> r.value == TopThreeTotal(ElfTotals(input).value)
  {
    var parsed := ElfTotals(input);
    if parsed.None? {
      return None;
    }
    var total := SumOfTopThree(parsed.value);
    r := Some(total);
  }

  /** The vector of totals sorted in place, reversed, and its first three
      elements summed. */
  method SumOfTopThree(totals: seq<nat>) returns (r: nat)
    ensures r == TopThreeTotal(totals)
  {
    var elves := new nat[|totals|](i requires 0 <= i < |totals| => totals[i]);
    assert elves[..] == totals;
    Sort(elves);
    TopThreeOfAnySort(totals, elves[..]);
    var descending := Reverse(elves[..]);
    r := Sum(descending[..Min(3, elves.Length)]);
  }

  /** Any ascending arrangement of the totals gives the same three largest. */
  lemma TopThreeOfAnySort(totals: seq<nat>, sorted: seq<nat>)
    requires SortedAscending(sorted) && multiset(sorted) == multiset(totals)
    ensures |sorted| == |totals|
    ensures TopThreeTotal(totals) == Sum(Reverse(sorted)[..Min(3, |sorted|)])
  {
    SortedUnique(sorted, SortAscending(totals));
  }

  /** The largest total is always among the three taken, so part 2 is at
      least part 1. */
  lemma {:induction false} TopThreeAtLeastMax(totals: seq<nat>)
    requires |totals| > 0
    ensures TopThreeTotal(totals) >= Max(totals)
  {
    var sorted := SortAscending(totals);
    var n := |sorted|;
    var taken := Reverse(sorted)[..Min(3, n)];
    assert Max(totals) in multiset(sorted) by {
      assert Max(totals) in multiset(totals);
    }
    var j :| 0 <= j < n && sorted[j] == Max(totals);
    assert sorted[j] <= sorted[n - 1];
    assert taken[0] == sorted[n - 1];
    SumAtLeastFirst(taken);
  }

  lemma SumAtLeastFirst(s: seq<nat>)
    requires s != []
    ensures Sum(s) >= s[0]
  {
  }

  lemma Part2AtLeastPart1(input: string)
    requires Part1(input).Some?
    ensures TopThreeTotal(ElfTotals(input).value) >= Part1(input).value
  {
    TopThreeAtLeastMax(ElfTotals(input).value);
  }

  /** With three elves or fewer, part 2 adds up every total. */
  lemma {:induction false} TopThreeOfFew(totals: seq<nat>)
    requires |totals| <= 3
    ensures TopThreeTotal(totals) == Sum(totals)
  {
    var sorted := SortAscending(totals);
    var descending := Reverse(sorted);
    var taken := descending[..Min(3, |totals|)];
    assert TopThreeTotal(totals) == Sum(taken);
    assert taken == descending;
    assert Sum(taken) == Sum(descending);
    ReversePermutes(sorted);
    SumPermutation(descending, totals);
  }

  /** The totals taken are the largest ones: none left out exceeds one taken. */
  lemma {:induction false} TopThreeAreLargest(totals: seq<nat>, i: nat, j: nat)
    requires i < Min(3, |totals|) <= j < |totals|
    ensures Reverse(SortAscending(totals))[j] <= Reverse(SortAscending(totals))[i]
    ensures multiset(Reverse(SortAscending(totals))) == multiset(totals)
  {
    ReversePermutes(SortAscending(totals));
  }

  // ---------------------------------------------------------------------
  // The sample of the tests

  /** Text with no blank line in it: no two line feeds in a row. */
  ghost predicate NoBlankLine(s: string)
  {
    forall j :: !OccursAt(s, "\n\n", j)
  }

  /** Non-empty lines joined by line feeds hold no blank line, and neither
      start nor end with a line feed. */
  lemma {:induction false} JoinedLinesNoBlank(lines: seq<string>)
    requires |lines| > 0
    requires forall i :: 0 <= i < |lines| ==> lines[i] != [] && '\n' !in lines[i]
    ensures var s := Join(lines, "\n"); s != [] && s[0] != '\n' && s[|s| - 1] != '\n' && NoBlankLine(s)
  {
    var s := Join(lines, "\n");
    if |lines| == 1 {
      forall j ensures !OccursAt(s, "\n\n", j) {
        if 0 <= j && j + 2 <= |s| {
          assert s[j..j + 2][0] == s[j] != '\n';
        }
      }
    } else {
      var head, t := lines[0], Join(lines[1..], "\n");
      JoinedLinesNoBlank(lines[1..]);
      assert s == head + "\n" + t;
      forall j ensures !OccursAt(s, "\n\n", j) {
        if 0 <= j && j + 2 <= |s| {
          if j < |head| {
            assert s[j..j + 2][0] == s[j] == head[j] != '\n';
          } else if j == |head| {
            assert s[j..j + 2][1] == s[j + 1] == t[0] != '\n';
          } else {
            var k := j - |head| - 1;
            assert s[j..j + 2] == t[k..k + 2];
            assert !OccursAt(t, "\n\n", k);
          }
        }
      }
    }
  }

  /** Splitting at blank lines undoes joining groups with blank lines, as
      long as no group is empty, ends with a line feed or holds a blank
      line. */
  lemma {:induction false} SplitJoinBlank(groups: seq<string>)
    requires |groups| > 0
    requires forall i :: 0 <= i < |groups| ==>
      groups[i] != [] && groups[i][|groups[i]| - 1] != '\n' && NoBlankLine(groups[i])
    ensures Split(Join(groups, "\n\n"), "\n\n") == groups
  {
    var s := Join(groups, "\n\n");
    if |groups| > 1 {
      var head, t := groups[0], Join(groups[1..], "\n\n");
      var n := |head|;
      assert s == head + "\n\n" + t;
      assert s[n..n + 2] == "\n\n";
      forall j | 0 <= j < n
        ensures !OccursAt(s, "\n\n", j)
      {
        if j == n - 1 {
          assert s[j..j + 2][0] == s[j] == head[n - 1] != '\n';
        } else {
          assert s[j..j + 2] == head[j..j + 2];
          assert !OccursAt(head, "\n\n", j);
        }
      }
      IndexOfFirst(s, "\n\n", n);
      assert s[..n] == head && s[n + 2..] == t;
      SplitJoinBlank(groups[1..]);
      ConsTail(groups);
    }
  }

  /** The lines of one elf: its item calories in decimal. */
  function ItemLines(items: seq<nat>): (r: seq<string>)
    ensures |r| == |items|
    ensures forall i :: 0 <= i < |r| ==> r[i] == NatToString(items[i])
  {
    seq(|items|, i requires 0 <= i < |items| => NatToString(items[i]))
  }

  /** The numbers of written item lines read back as themselves. */
  lemma ParseItemLines(items: seq<nat>)
    ensures ParseItems(ItemLines(items)) == Some(items)
  {
    var lines := ItemLines(items);
    forall i | 0 <= i < |lines|
      ensures ParseNat(lines[i]) == Some(items[i])
    {
      ParseNatToString(items[i]);
    }
    assert ParseItems(lines).value == items;
  }

  /** A number in decimal is a non-empty line without line feeds. */
  lemma DecimalIsLine(n: nat)
    ensures NatToString(n) != [] && '\n' !in NatToString(n)
  {
  }

  /** The text of one elf: its item lines. */
  function ElfText(items: seq<nat>): string
    requires |items| > 0
  {
    Join(ItemLines(items), "\n")
  }

  /** The elves' texts, in order. */
  function ElfTexts(elves: seq<seq<nat>>): (r: seq<string>)
    requires forall i :: 0 <= i < |elves| ==> |elves[i]| > 0
    ensures |r| == |elves| && forall i :: 0 <= i < |r| ==> r[i] == ElfText(elves[i])
  {
    seq(|elves|, i requires 0 <= i < |elves| => ElfText(elves[i]))
  }

  /** An elf's text reads back as its items, and holds no blank line. */
  lemma ElfTextRoundTrip(items: seq<nat>)
    requires |items| > 0
    ensures var s := ElfText(items); s != [] && s[|s| - 1] != '\n' && NoBlankLine(s)
    ensures ParseItems(Lines(ElfText(items))) == Some(items)
  {
    var lines := ItemLines(items);
    forall i | 0 <= i < |lines|
      ensures lines[i] != [] && '\n' !in lines[i]
    {
      DecimalIsLine(items[i]);
    }
    JoinedLinesNoBlank(lines);
    LinesJoin(lines);
    ParseItemLines(items);
  }

  /** The totals read from the elves' texts, separated by blank lines, are
      the sums of their items. */
  lemma ElfTotalsRoundTrip(elves: seq<seq<nat>>)
    requires |elves| > 0 && forall i :: 0 <= i < |elves| ==> |elves[i]| > 0
    ensures ElfTotals(Join(ElfTexts(elves), "\n\n")) ==
      Some(seq(|elves|, i requires 0 <= i < |elves| => Sum(elves[i])))
  {
    var groups := ElfTexts(elves);
    forall i | 0 <= i < |groups|
      ensures var g := groups[i]; g != [] && g[|g| - 1] != '\n' && NoBlankLine(g)
      ensures ParseItems(Lines(groups[i])) == Some(elves[i])
    {
      ElfTextRoundTrip(elves[i]);
    }
    SplitJoinBlank(groups);
    var totals := TotalsOf(groups).value;
    assert totals == seq(|elves|, i requires 0 <= i < |elves| => Sum(elves[i]));
  }

  /** The calories of the sample's five elves. */
  const SampleElves: seq<seq<nat>> := [[1000, 2000, 3000], [4000], [5000, 6000], [7000, 8000, 9000], [10000]]

  /** The sample input: each elf's calories one per line, elves separated
      by blank lines. */
  const SampleInput := Join(ElfTexts(SampleElves), "\n\n")

  /** The elves of the sample carry 6000, 4000, 11000, 24000 and 10000
      calories. */
  lemma SampleTotals()
    ensures ElfTotals(SampleInput) == Some([6000, 4000, 11000, 24000, 10000])
  {
    ElfTotalsRoundTrip(SampleElves);
    SampleSums();
  }

  lemma SampleSums()
    ensures seq(5, i requires 0 <= i < 5 => Sum(SampleElves[i])) == [6000, 4000, 11000, 24000, 10000]
  {
    assert Sum(SampleElves[0]) == 6000 && Sum(SampleElves[2]) == 11000 && Sum(SampleElves[3]) == 24000;
  }

  /** The sample gives 24000 for part 1. */
  lemma SamplePart1()
    ensures Part1(SampleInput) == Some(24000)
  {
    SampleTotals();
    SampleMax(ElfTotals(SampleInput).value);
  }

  lemma SampleMax(totals: seq<nat>)
    requires totals == [6000, 4000, 11000, 24000, 10000]
    ensures Max(totals) == 24000
  {
    assert totals[3] == 24000;
  }

  /** The sample gives 45000 for part 2: 24000 + 11000 + 10000. */
  lemma SamplePart2()
    ensures ElfTotals(SampleInput).Some? && TopThreeTotal(ElfTotals(SampleInput).value) == 45000
  {
    SampleTotals();
    SampleTopThree(ElfTotals(SampleInput).value);
  }

  lemma SampleTopThree(totals: seq<nat>)
    requires totals == [6000, 4000, 11000, 24000, 10000]
    ensures TopThreeTotal(totals) == 45000
  {
    var sorted: seq<nat> := [4000, 6000, 10000, 11000, 24000];
    SampleSorted(sorted);
    SamplePermutes();
    TopThreeOfAnySort(totals, sorted);
    SampleTopOfSorted(sorted);
  }

  lemma SampleSorted(sorted: seq<nat>)
    requires sorted == [4000, 6000, 10000, 11000, 24000]
    ensures SortedAscending(sorted)
  {
  }

  /** The sample's totals in ascending order are a rearrangement of them. */
  lemma SamplePermutes()
    ensures multiset([4000, 6000, 10000, 11000, 24000]) == multiset([6000, 4000, 11000, 24000, 10000])
  {
  }

  lemma SampleTopOfSorted(sorted: seq<nat>)
    requires sorted == [4000, 6000, 10000, 11000, 24000]
    ensures Sum(Reverse(sorted)[..Min(3, |sorted|)]) == 45000
  {
    var top := Reverse(sorted)[..3];
    assert top == [24000, 11000, 10000];
    assert top[1..] == [11000, 10000] && top[2..] == [10000] && top[3..] == [];
    assert Sum(top) == 24000 + Sum(top[1..]) == 24000 + 11000 + Sum(top[2..]);
  }

  /** The sample input is the text of the tests: the five elves' lines,
      separated by blank lines. */
  lemma SampleText()
    ensures SampleInput == "1000\n2000\n3000" + "\n\n" + "4000" + "\n\n" + "5000\n6000" + "\n\n" +
      "7000\n8000\n9000" + "\n\n" + "10000"
  {
    var texts := ElfTexts(SampleElves);
    SampleElfTexts(texts);
    JoinFive(texts, "\n\n");
  }

  lemma SampleElfTexts(texts: seq<string>)
    requires texts == ElfTexts(SampleElves)
    ensures |texts| == 5
    ensures texts[0] == "1000\n2000\n3000" && texts[1] == "4000" && texts[2] == "5000\n6000"
    ensures texts[3] == "7000\n8000\n9000" && texts[4] == "10000"
  {
    SampleElf0(SampleElves[0]);
    SampleElf1(SampleElves[1]);
    SampleElf2(SampleElves[2]);
    SampleElf3(SampleElves[3]);
    SampleElf4(SampleElves[4]);
  }

  lemma SampleElf0(items: seq<nat>)
    requires items == [1000, 2000, 3000]
    ensures |items| > 0 && ElfText(items) == "1000\n2000\n3000"
  {
    Decimals123();
    ElfTextThree(items[0], items[1], items[2]);
    assert items == [items[0], items[1], items[2]];
  }

  lemma SampleElf1(items: seq<nat>)
    requires items == [4000]
    ensures |items| > 0 && ElfText(items) == "4000"
  {
    Decimal(4000, "4000");
    ElfTextOne(items[0]);
    assert items == [items[0]];
  }

  lemma SampleElf2(items: seq<nat>)
    requires items == [5000, 6000]
    ensures |items| > 0 && ElfText(items) == "5000\n6000"
  {
    Decimals456();
    ElfTextTwo(items[0], items[1]);
    assert items == [items[0], items[1]];
  }

  lemma SampleElf3(items: seq<nat>)
    requires items == [7000, 8000, 9000]
    ensures |items| > 0 && ElfText(items) == "7000\n8000\n9000"
  {
    Decimals789();
    ElfTextThree(items[0], items[1], items[2]);
    assert items == [items[0], items[1], items[2]];
  }

  lemma SampleElf4(items: seq<nat>)
    requires items == [10000]
    ensures |items| > 0 && ElfText(items) == "10000"
  {
    ElfTextOne(items[0]);
    assert items == [items[0]];
  }

  lemma Decimals123()
    ensures NatToString(1000) == "1000" && NatToString(2000) == "2000" && NatToString(3000) == "3000"
  {
    Decimal(1000, "1000");
    Decimal(2000, "2000");
    Decimal(3000, "3000");
  }

  lemma Decimals456()
    ensures NatToString(4000) == "4000" && NatToString(5000) == "5000" && NatToString(6000) == "6000"
  {
    Decimal(4000, "4000");
    Decimal(5000, "5000");
    Decimal(6000, "6000");
  }

  lemma Decimals789()
    ensures NatToString(7000) == "7000" && NatToString(8000) == "8000" && NatToString(9000) == "9000"
  {
    Decimal(7000, "7000");
    Decimal(8000, "8000");
    Decimal(9000, "9000");
  }

  /** A multiple of a thousand below ten thousand is its digit and three
      zeros. */
  lemma Decimal(n: nat, s: string)
    requires 1000 <= n < 10000 && n % 1000 == 0 && s == [DigitChar(n / 1000)] + "000"
    ensures NatToString(n) == s
  {
    var d := n / 1000;
    assert n / 10 == d * 100 && d * 100 / 10 == d * 10 && d * 10 / 10 == d;
    assert n % 10 == 0 && d * 100 % 10 == 0 && d * 10 % 10 == 0;
    assert NatToString(d * 10) == [DigitChar(d)] + "0";
    assert NatToString(d * 100) == [DigitChar(d)] + "00";
  }

  /** The text of an elf carrying one, two or three items. */
  lemma ElfTextOne(a: nat)
    ensures ElfText([a]) == NatToString(a)
  {
  }

  lemma ElfTextTwo(a: nat, b: nat)
    ensures ElfText([a, b]) == NatToString(a) + "\n" + NatToString(b)
  {
    var lines := ItemLines([a, b]);
    assert lines[1..] == [NatToString(b)];
    assert Join(lines[1..], "\n") == NatToString(b);
  }

  lemma ElfTextThree(a: nat, b: nat, c: nat)
    ensures ElfText([a, b, c]) == NatToString(a) + "\n" + NatToString(b) + "\n" + NatToString(c)
  {
    var lines := ItemLines([a, b, c]);
    assert lines[1..][1..] == [NatToString(c)];
    assert Join(lines[1..], "\n") == NatToString(b) + "\n" + NatToString(c);
  }

  /** Five parts joined by a separator. */
  lemma JoinFive(parts: seq<string>, sep: string)
    requires |parts| == 5
    ensures Join(parts, sep) == parts[0] + sep + parts[1] + sep + parts[2] + sep + parts[3] + sep + parts[4]
  {
    var p1, p2, p3, p4 := parts[1], parts[2], parts[3], parts[4];
    assert parts[1..][1..] == parts[2..] && parts[2..][1..] == parts[3..] && parts[3..][1..] == parts[4..];
    assert Join(parts[3..], sep) == p3 + sep + p4;
    assert Join(parts[2..], sep) == p2 + sep + (p3 + sep + p4);
    assert Join(parts[1..], sep) == p1 + sep + (p2 + sep + (p3 + sep + p4));
  }
}
