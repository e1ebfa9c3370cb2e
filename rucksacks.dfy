/** Rucksack reorganisation (day-03/src/main.rs). Each line lists the items
    of one rucksack, one letter per item; the first half of the line is the
    first compartment and the second half the second. Part 1 sums the
    priorities of the item found in both compartments of each rucksack;
    part 2 sums the priorities of the badge common to each group of three
    consecutive rucksacks. */
module Rucksacks {
  import opened Common
  import opened Text

  predicate IsLower(c: char)
  {
    'a' <= c <= 'z'
  }

  predicate IsUpper(c: char)
  {
    'A' <= c <= 'Z'
  }

  predicate IsLetter(c: char)
  {
    IsLower(c) || IsUpper(c)
  }

  /** `priority`: 'a'..'z' are 1..26 and everything else is counted from
      'A' = 27, relative to the character code. */
  function Priority(c: char): (p: int)
    ensures IsLower(c) ==> p == c as int - 'a' as int + 1
    ensures IsUpper(c) ==> p == c as int - 'A' as int + 27
    ensures IsLetter(c) ==> 1 <= p <= 52
  {
    if IsLower(c) then c as int - ('a' as int - 1)
    else c as int - ('A' as int - 27)
  }

  /** Distinct letters have distinct priorities. */
  lemma PriorityInjective(c: char, d: char)
    requires IsLetter(c) && IsLetter(d)
    requires Priority(c) == Priority(d)
    ensures c == d
  {
  }

  /** Every priority from 1 to 52 belongs to a letter. */
  lemma PrioritySurjective(p: int)
    requires 1 <= p <= 52
    ensures exists c :: IsLetter(c) && Priority(c) == p
  {
    if p <= 26 {
      var c := ('a' as int + p - 1) as char;
      assert IsLetter(c) && Priority(c) == p;
    } else {
      var c := ('A' as int + p - 27) as char;
      assert IsLetter(c) && Priority(c) == p;
    }
  }

  lemma PrioritySamples()
    ensures Priority('a') == 1 && Priority('p') == 16 && Priority('L') == 38
    ensures Priority('P') == 42 && Priority('v') == 22 && Priority('t') == 20
    ensures Priority('s') == 19
  {
  }

  /** The offset of the first character of `s` that is in `items`
      (`Iterator::find`), or `None`. */
  function FindFirstIn(s: string, items: set<char>): (r: Option<nat>)
    ensures r.Some? ==> r.value < |s| && s[r.value] in items
    ensures r.Some? ==> forall j :: 0 <= j < r.value ==> s[j] !in items
    ensures r.None? ==> forall j :: 0 <= j < |s| ==> s[j] !in items
  {
    if s == [] then None
    else if s[0] in items then Some(0)
    else
      match FindFirstIn(s[1..], items)
      case None => None
      case Some(i) => Some(i + 1)
  }

  /** The characters of a string (`chars().collect::<HashSet<_>>()`). */
  function CharSet(s: string): (r: set<char>)
    ensures forall c :: c in r <==> c in s
  {
    set c | c in s
  }

  /** The two compartments: the line split at half its length. */
  function Compartments(line: string): (r: (string, string))
    ensures r.0 + r.1 == line
    ensures |r.0| == |line| / 2 && |r.1| - |r.0| <= 1
  {
    (line[..|line| / 2], line[|line| / 2..])
  }

  /** `find_item_in_both_compartments`: the first item of the second
      compartment that also occurs in the first, or `None` ("No common item
      found"). */
  function FindItemInBothCompartments(line: string): (r: Option<char>)
    ensures r.Some? ==> r.value in Compartments(line).0 && r.value in Compartments(line).1
    ensures r.None? <==> forall c :: c in Compartments(line).0 ==> c !in Compartments(line).1
  {
    var (left, right) := Compartments(line);
    match FindFirstIn(right, CharSet(left))
    case None => None
    case Some(i) => Some(right[i])
  }

  /** The item found is the first one of the second compartment that the
      first compartment holds. */
  lemma FindItemIsFirst(line: string, i: nat)
    requires i < |Compartments(line).1|
    requires Compartments(line).1[i] in Compartments(line).0
    requires forall j :: 0 <= j < i ==> Compartments(line).1[j] !in Compartments(line).0
    ensures FindItemInBothCompartments(line) == Some(Compartments(line).1[i])
  {
    var (left, right) := Compartments(line);
    var r := FindFirstIn(right, CharSet(left));
    assert right[i] in CharSet(left);
  }

  /** The sum of the priorities of the common items of the lines, or `None`
      when some line has none. */
  function PrioritySum(lines: seq<string>): (r: Option<int>)
    ensures r.Some? <==> forall i :: 0 <= i < |lines| ==> FindItemInBothCompartments(lines[i]).Some?
  {
    if lines == [] then Some(0)
    else
      match (FindItemInBothCompartments(lines[0]), PrioritySum(lines[1..]))
      case (Some(c), Some(rest)) => Some(Priority(c) + rest)
      case _ => None
  }

  /** When every item is a letter, each rucksack adds 1 to 52. */
  lemma {:induction false} PrioritySumBounds(lines: seq<string>)
    requires PrioritySum(lines).Some?
    requires forall i :: 0 <= i < |lines| ==> IsLetter(FindItemInBothCompartments(lines[i]).value)
    ensures |lines| <= PrioritySum(lines).value <= 52 * |lines|
  {
    if lines != [] {
      PrioritySumBounds(lines[1..]);
    }
  }

  /** Part 1. */
  function Part1(input: string): (r: Option<int>)
    ensures r.Some? <==> forall i :: 0 <= i < |Lines(input)| ==> FindItemInBothCompartments(Lines(input)[i]).Some?
  {
    PrioritySum(Lines(input))
  }

  /** A group of three consecutive rucksacks. */
  datatype Group = Group(a: string, b: string, c: string)

  /** `tuples()` over the lines: consecutive groups of three, with an
      incomplete trailing group dropped. */
  function Groups(lines: seq<string>): (r: seq<Group>)
    ensures |r| == |lines| / 3
    ensures forall g :: 0 <= g < |r| ==> r[g] == Group(lines[3 * g], lines[3 * g + 1], lines[3 * g + 2])
  {
    if |lines| < 3 then []
    else [Group(lines[0], lines[1], lines[2])] + Groups(lines[3..])
  }

  /** The items carried by all three rucksacks of a group. */
  function CommonItems(g: Group): (r: set<char>)
    ensures forall x :: x in r <==> x in g.a && x in g.b && x in g.c
  {
    set x | x in g.a && x in g.b && x in g.c
  }

  /** `find_badge`: the set of the first rucksack's items, kept to those the
      second holds and then to those the third holds; some element of what
      is left, or `None` ("No badge found"). Which element a hash set yields
      first is not specified, so neither is it here. */
  method FindBadge(g: Group) returns (r: Option<char>)
    ensures r.Some? ==> r.value in g.a && r.value in g.b && r.value in g.c
    ensures r.None? <==> CommonItems(g) == {}
  {
    var items := CharSet(g.a);
    items := set x | x in items && x in g.b;
    items := set x | x in items && x in g.c;
    assert items == CommonItems(g);
    if items == {} {
      return None;
    }
    var x :| x in items;
    return Some(x);
  }

  /** The badge of a group whose common items are exactly one. */
  ghost function SoleBadge(g: Group): (x: char)
    requires |CommonItems(g)| == 1
    ensures CommonItems(g) == {x}
  {
    var x :| x in CommonItems(g);
    assert CommonItems(g) - {x} == {} by {
      assert |CommonItems(g) - {x}| == 0;
    }
    x
  }

  /** Every group has a badge. */
  predicate AllHaveBadges(groups: seq<Group>)
  {
    forall g :: 0 <= g < |groups| ==> CommonItems(groups[g]) != {}
  }

  /** Every group has exactly one badge. */
  predicate AllSoleBadges(groups: seq<Group>)
  {
    forall g :: 0 <= g < |groups| ==> |CommonItems(groups[g])| == 1
  }

  /** The part-2 total when every group has exactly one badge. */
  ghost function SoleBadgeTotal(groups: seq<Group>): int
    requires AllSoleBadges(groups)
  {
    if groups == [] then 0 else Priority(SoleBadge(groups[0])) + SoleBadgeTotal(groups[1..])
  }

  lemma {:induction false} SoleBadgeTotalAppend(groups: seq<Group>, g: Group)
    requires AllSoleBadges(groups) && |CommonItems(g)| == 1
    ensures AllSoleBadges(groups + [g])
    ensures SoleBadgeTotal(groups + [g]) == SoleBadgeTotal(groups) + Priority(SoleBadge(g))
  {
    assert forall k :: 0 <= k < |groups| ==> (groups + [g])[k] == groups[k];
    assert (groups + [g])[|groups|] == g;
    if groups != [] {
      assert (groups + [g])[1..] == groups[1..] + [g];
      SoleBadgeTotalAppend(groups[1..], g);
    } else {
      assert [g][1..] == [];
    }
  }

  lemma AllBadgesAppend(groups: seq<Group>, g: Group)
    ensures AllHaveBadges(groups + [g]) <==> AllHaveBadges(groups) && CommonItems(g) != {}
    ensures AllSoleBadges(groups + [g]) <==> AllSoleBadges(groups) && |CommonItems(g)| == 1
  {
    assert forall k :: 0 <= k < |groups| ==> (groups + [g])[k] == groups[k];
    assert (groups + [g])[|groups|] == g;
  }

  /** The badge priorities of the groups summed, or `None` when a group
      has no badge. When every group has a single badge the total is
      determined. */
  method BadgeTotal(groups: seq<Group>) returns (r: Option<int>)
    ensures r.Some? <==> AllHaveBadges(groups)
    ensures r.Some? && AllSoleBadges(groups) ==> r.value == SoleBadgeTotal(groups)
  {
    var total := 0;
    var i := 0;
    while i < |groups|
      invariant 0 <= i <= |groups|
      invariant AllHaveBadges(groups[..i])
      invariant AllSoleBadges(groups[..i]) ==> total == SoleBadgeTotal(groups[..i])
    {
      var badge := FindBadge(groups[i]);
      if badge.None? {
        assert CommonItems(groups[i]) == {};
        return None;
      }
      assert groups[..i + 1] == groups[..i] + [groups[i]];
      AllBadgesAppend(groups[..i], groups[i]);
      if AllSoleBadges(groups[..i + 1]) {
        SoleBadgeTotalAppend(groups[..i], groups[i]);
        assert badge.value in CommonItems(groups[i]);
        assert badge.value == SoleBadge(groups[i]);
      }
      total := total + Priority(badge.value);
      i := i + 1;
    }
    assert groups[..i] == groups;
    return Some(total);
  }

  /** Part 2 (`lines().tuples().map(find_badge).map(priority).sum()`). */
  method Part2(input: string) returns (r: Option<int>)
    ensures r.Some? <==> AllHaveBadges(Groups(Lines(input)))
    ensures r.Some? && AllSoleBadges(Groups(Lines(input))) ==> r.value == SoleBadgeTotal(Groups(Lines(input)))
  {
    r := BadgeTotal(Groups(Lines(input)));
  }

  /** Splitting a line whose halves are `left` and `right`. */
  lemma CompartmentsOf(left: string, right: string)
    requires |left| == |right|
    ensures Compartments(left + right) == (left, right)
  {
    assert (left + right)[..|left|] == left;
    assert (left + right)[|left|..] == right;
  }

  /** The common item found for a rucksack made of `left` and `right`. */
  lemma FindItemOf(left: string, right: string, i: nat)
    requires |left| == |right| && i < |right|
    requires right[i] in left
    requires forall j :: 0 <= j < i ==> right[j] !in left
    ensures FindItemInBothCompartments(left + right) == Some(right[i])
  {
    CompartmentsOf(left, right);
    FindItemIsFirst(left + right, i);
  }

  // The six sample rucksacks.
  const Sack0 := "vJrwpWtwJgWrhcsFMMfFFhFp"
  const Sack1 := "jqHRNqRjqzjGDLGLrsFMfFZSrLrFZsSL"
  const Sack2 := "PmmdzqPrVvPwwTWBwg"
  const Sack3 := "wMqvLMZHhHMvwLHjbvcjnnSBnvTQFn"
  const Sack4 := "ttgJtRGJQctTZtZT"
  const Sack5 := "CrZsJsPPZsGzwwsLwLmpwMDw"

  const SampleRucksacks := [Sack0, Sack1, Sack2, Sack3, Sack4, Sack5]

  /** The sample as one text, one rucksack per line. */
  const SampleInput := Join(SampleRucksacks, "\n")

  lemma SampleItem0()
    ensures FindItemInBothCompartments(Sack0) == Some('p')
  {
    assert "vJrwpWtwJgWr" + "hcsFMMfFFhFp" == Sack0;
    FindItemOf("vJrwpWtwJgWr", "hcsFMMfFFhFp", 11);
  }

  lemma SampleItem1()
    ensures FindItemInBothCompartments(Sack1) == Some('L')
  {
    assert "jqHRNqRjqzjGDLGL" + "rsFMfFZSrLrFZsSL" == Sack1;
    FindItemOf("jqHRNqRjqzjGDLGL", "rsFMfFZSrLrFZsSL", 9);
  }

  lemma SampleItem2()
    ensures FindItemInBothCompartments(Sack2) == Some('P')
  {
    assert "PmmdzqPrV" + "vPwwTWBwg" == Sack2;
    FindItemOf("PmmdzqPrV", "vPwwTWBwg", 1);
  }

  lemma SampleItem3()
    ensures FindItemInBothCompartments(Sack3) == Some('v')
  {
    assert "wMqvLMZHhHMvwLH" + "jbvcjnnSBnvTQFn" == Sack3;
    FindItemOf("wMqvLMZHhHMvwLH", "jbvcjnnSBnvTQFn", 2);
  }

  lemma SampleItem4()
    ensures FindItemInBothCompartments(Sack4) == Some('t')
  {
    assert "ttgJtRGJ" + "QctTZtZT" == Sack4;
    FindItemOf("ttgJtRGJ", "QctTZtZT", 2);
  }

  lemma SampleItem5()
    ensures FindItemInBothCompartments(Sack5) == Some('s')
  {
    assert "CrZsJsPPZsGz" + "wwsLwLmpwMDw" == Sack5;
    FindItemOf("CrZsJsPPZsGz", "wwsLwLmpwMDw", 2);
  }

  lemma SampleLines()
    ensures Lines(SampleInput) == SampleRucksacks
  {
    forall i | 0 <= i < |SampleRucksacks|
      ensures '\n' !in SampleRucksacks[i]
    {
      if i == 0 { var sack := SampleRucksacks[i]; assert sack == Sack0; assert '\n' !in sack; }
      else if i == 1 { var sack := SampleRucksacks[i]; assert sack == Sack1; assert '\n' !in sack; }
      else if i == 2 { var sack := SampleRucksacks[i]; assert sack == Sack2; assert '\n' !in sack; }
      else if i == 3 { var sack := SampleRucksacks[i]; assert sack == Sack3; assert '\n' !in sack; }
      else if i == 4 { var sack := SampleRucksacks[i]; assert sack == Sack4; assert '\n' !in sack; }
      else { var sack := SampleRucksacks[i]; assert sack == Sack5; assert '\n' !in sack; }
    }
    LinesJoin(SampleRucksacks);
  }

  /** The sum of the priorities of a list of items. */
  function ItemPriorities(items: seq<char>): int
  {
    if items == [] then 0 else Priority(items[0]) + ItemPriorities(items[1..])
  }

  /** When the common item of each line is known, `PrioritySum` adds up
      their priorities. */
  lemma {:induction false} PrioritySumOfItems(lines: seq<string>, items: seq<char>)
    requires |items| == |lines|
    requires forall i :: 0 <= i < |lines| ==> FindItemInBothCompartments(lines[i]) == Some(items[i])
    ensures PrioritySum(lines) == Some(ItemPriorities(items))
  {
    if lines != [] {
      PrioritySumOfItems(lines[1..], items[1..]);
    }
  }

  /** The common items of the sample are p, L, P, v, t and s. */
  lemma SampleItemAt(i: nat)
    requires i < |SampleRucksacks|
    ensures FindItemInBothCompartments(SampleRucksacks[i]) == Some("pLPvts"[i])
  {
    var sack := SampleRucksacks[i];
    var c := "pLPvts"[i];
    if i == 0 { assert sack == Sack0 && c == 'p'; SampleItem0(); }
    else if i == 1 { assert sack == Sack1 && c == 'L'; SampleItem1(); }
    else if i == 2 { assert sack == Sack2 && c == 'P'; SampleItem2(); }
    else if i == 3 { assert sack == Sack3 && c == 'v'; SampleItem3(); }
    else if i == 4 { assert sack == Sack4 && c == 't'; SampleItem4(); }
    else { assert sack == Sack5 && c == 's'; SampleItem5(); }
  }

  lemma SampleItems()
    ensures forall i :: 0 <= i < |SampleRucksacks| ==>
      FindItemInBothCompartments(SampleRucksacks[i]) == Some("pLPvts"[i])
  {
    forall i | 0 <= i < |SampleRucksacks|
      ensures FindItemInBothCompartments(SampleRucksacks[i]) == Some("pLPvts"[i])
    {
      SampleItemAt(i);
    }
  }

  lemma SampleSum()
    ensures PrioritySum(SampleRucksacks) == Some(157)
  {
    SampleItems();
    PrioritySumOfItems(SampleRucksacks, "pLPvts");
    assert ItemPriorities("pLPvts") == 157 by {
      PrioritySamples();
    }
  }

  /** The sample rucksacks give 157 for part 1. */
  lemma SamplePart1()
    ensures Part1(SampleInput) == Some(157)
  {
    SampleLines();
    SampleSum();
  }

  /** A group whose rucksacks share `x` and nothing else has badge `x`. */
  lemma CommonIsSingle(g: Group, x: char)
    requires x in g.a && x in g.b && x in g.c
    requires forall y :: y in g.c && y in g.a && y in g.b ==> y == x
    ensures CommonItems(g) == {x}
  {
  }

  lemma ItemsOfSack2(y: char)
    requires y in Sack2
    ensures y in "PmdzqrVvwTWBg"
  {
  }

  lemma ItemsOfSack2And0(y: char)
    requires y in "PmdzqrVvwTWBg" && y in Sack0
    ensures y in "rvwWg"
  {
  }

  lemma FirstBadgeOnly(y: char)
    requires y in "rvwWg" && y in Sack1
    ensures y == 'r'
  {
  }

  lemma ItemsOfSack4(y: char)
    requires y in Sack4
    ensures y in "tgJRGQcTZ"
  {
  }

  lemma ItemsOfSack4And3(y: char)
    requires y in "tgJRGQcTZ" && y in Sack3
    ensures y in "ZcTQ"
  {
  }

  lemma SecondBadgeOnly(y: char)
    requires y in "ZcTQ" && y in Sack5
    ensures y == 'Z'
  {
  }

  /** The first sample group shares only 'r'. */
  lemma SampleBadge0()
    ensures CommonItems(Group(Sack0, Sack1, Sack2)) == {'r'}
  {
    var g := Group(Sack0, Sack1, Sack2);
    assert g.a[2] == 'r' && g.b[16] == 'r' && g.c[7] == 'r';
    forall y | y in g.c && y in g.a && y in g.b
      ensures y == 'r'
    {
      ItemsOfSack2(y);
      ItemsOfSack2And0(y);
      FirstBadgeOnly(y);
    }
    CommonIsSingle(g, 'r');
  }

  /** The second sample group shares only 'Z'. */
  lemma SampleBadge1()
    ensures CommonItems(Group(Sack3, Sack4, Sack5)) == {'Z'}
  {
    var g := Group(Sack3, Sack4, Sack5);
    assert g.a[6] == 'Z' && g.b[12] == 'Z' && g.c[2] == 'Z';
    forall y | y in g.b && y in g.a && y in g.c
      ensures y == 'Z'
    {
      ItemsOfSack4(y);
      ItemsOfSack4And3(y);
      SecondBadgeOnly(y);
    }
    CommonIsSingle(g, 'Z');
  }

  lemma SampleGroups()
    ensures Groups(SampleRucksacks) == [Group(Sack0, Sack1, Sack2), Group(Sack3, Sack4, Sack5)]
  {
  }

  /** Two groups with single badges `x` and `y` add up their priorities. */
  lemma SoleBadgeTotalOfTwo(g: Group, h: Group, x: char, y: char)
    requires CommonItems(g) == {x} && CommonItems(h) == {y}
    ensures AllSoleBadges([g, h])
    ensures SoleBadgeTotal([g, h]) == Priority(x) + Priority(y)
  {
    assert SoleBadge(g) in {x} && SoleBadge(h) in {y};
    assert AllSoleBadges([h]);
    assert [h][1..] == [];
    assert SoleBadgeTotal([h]) == Priority(y);
    assert [g, h][1..] == [h];
  }

  lemma SampleBadgeTotal()
    ensures AllSoleBadges([Group(Sack0, Sack1, Sack2), Group(Sack3, Sack4, Sack5)])
    ensures SoleBadgeTotal([Group(Sack0, Sack1, Sack2), Group(Sack3, Sack4, Sack5)]) == 70
  {
    SampleBadge0();
    SampleBadge1();
    SoleBadgeTotalOfTwo(Group(Sack0, Sack1, Sack2), Group(Sack3, Sack4, Sack5), 'r', 'Z');
  }

  /** The sample rucksacks form two groups, each with a single badge, and
      their badge priorities add up to 70; so `Part2` returns 70. */
  lemma SamplePart2()
    ensures AllSoleBadges(Groups(Lines(SampleInput)))
    ensures SoleBadgeTotal(Groups(Lines(SampleInput))) == 70
  {
    SampleLines();
    SampleGroups();
    SampleBadgeTotal();
  }
}
