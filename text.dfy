/** The parts of Rust's `str` API that the puzzle solutions rely on:
    `find`, `split`, `split_once`, `lines`, and decimal parsing to `usize`
    (`str::parse`, and nom's `digit1` prefix). Strings are sequences of
    characters; offsets are character offsets. */
module Text {
  import opened Common

  /** `pat` occurs in `s` starting at offset `i`. */
  predicate OccursAt(s: string, pat: string, i: int)
  {
    0 <= i && i + |pat| <= |s| && s[i..i + |pat|] == pat
  }

  lemma OccursAtShift(s: string, pat: string)
    requires |s| > 0
    ensures forall j :: 1 <= j ==> (OccursAt(s, pat, j) <==> OccursAt(s[1..], pat, j - 1))
  {
    forall j | 1 <= j
      ensures OccursAt(s, pat, j) <==> OccursAt(s[1..], pat, j - 1)
    {
      if j + |pat| <= |s| {
        assert s[1..][j - 1..j - 1 + |pat|] == s[j..j + |pat|];
      }
    }
  }

  /** The offset of the first occurrence of `pat` in `s` (`str::find`). */
  function IndexOf(s: string, pat: string): (r: Option<nat>)
    requires |pat| > 0
    ensures r.Some? ==> OccursAt(s, pat, r.value)
    ensures r.Some? ==> forall j :: 0 <= j < r.value ==> !OccursAt(s, pat, j)
    ensures r.None? ==> forall j :: !OccursAt(s, pat, j)
    decreases |s|
  {
    if |s| < |pat| then None
    else if s[..|pat|] == pat then Some(0)
    else
      OccursAtShift(s, pat);
      match IndexOf(s[1..], pat)
      case None => None
      case Some(i) => Some(i + 1)
  }

  /** Any first occurrence is the one `IndexOf` reports. */
  lemma IndexOfFirst(s: string, pat: string, i: nat)
    requires |pat| > 0
    requires OccursAt(s, pat, i)
    requires forall j :: 0 <= j < i ==> !OccursAt(s, pat, j)
    ensures IndexOf(s, pat) == Some(i)
  {
  }

  /** nom's `tag`: `s` with the prefix `p` consumed, if it starts with it. */
  function Tag(s: string, p: string): (r: Option<string>)
    ensures r.Some? <==> |p| <= |s| && s[..|p|] == p
    ensures r.Some? ==> s == p + r.value
  {
    if |p| <= |s| && s[..|p|] == p then
      assert s == s[..|p|] + s[|p|..];
      Some(s[|p|..])
    else None
  }

  lemma TagOf(p: string, rest: string)
    ensures Tag(p + rest, p) == Some(rest)
  {
    assert (p + rest)[..|p|] == p;
  }

  /** The pieces of `parts` glued back together with `sep` between them. */
  function Join(parts: seq<string>, sep: string): string
    requires |parts| > 0
  {
    if |parts| == 1 then parts[0] else parts[0] + sep + Join(parts[1..], sep)
  }

  /** Lines one after another, each preceded by a line feed. */
  function LinesAfter(lines: seq<string>): string
  {
    if lines == [] then "" else "\n" + lines[0] + LinesAfter(lines[1..])
  }

  /** Lines joined by line feeds: the first line, then each other line
      after a line feed. */
  lemma {:induction false} JoinLinesAfter(lines: seq<string>)
    requires |lines| > 0
    ensures Join(lines, "\n") == lines[0] + LinesAfter(lines[1..])
  {
    if |lines| == 1 {
      assert lines[1..] == [];
      assert lines[0] + "" == lines[0];
    } else {
      JoinLinesAfter(lines[1..]);
      var rest := LinesAfter(lines[2..]);
      assert lines[1..][1..] == lines[2..];
      assert Join(lines, "\n") == lines[0] + "\n" + (lines[1] + rest);
      assert LinesAfter(lines[1..]) == "\n" + lines[1] + rest;
    }
  }

  /** The first piece of a join of several, split off with what follows. */
  lemma JoinRegroup(parts: seq<string>, sep: string, rest: string)
    requires |parts| > 1
    ensures sep + Join(parts, sep) + rest == sep + parts[0] + (sep + Join(parts[1..], sep) + rest)
    ensures Join(parts, sep) + rest == parts[0] + (sep + Join(parts[1..], sep) + rest)
  {
  }

  /** Cutting `s` around the first occurrence of `sep`, at `i`: what comes
      before it holds no occurrence of `sep`. */
  lemma CutAtFirst(s: string, sep: string, i: nat)
    requires |sep| > 0 && OccursAt(s, sep, i)
    requires forall j :: 0 <= j < i ==> !OccursAt(s, sep, j)
    ensures s == s[..i] + sep + s[i + |sep|..]
    ensures forall j :: !OccursAt(s[..i], sep, j)
  {
    assert s[i..i + |sep|] == sep;
    forall j
      ensures !OccursAt(s[..i], sep, j)
    {
      if 0 <= j && j + |sep| <= i {
        assert !OccursAt(s, sep, j);
        assert s[..i][j..j + |sep|] == s[j..j + |sep|];
      }
    }
  }

  /** `str::split` with a non-empty pattern: the pieces between the
      non-overlapping occurrences of `sep`, found left to right. There is
      always at least one piece, and joining them gives back `s`. */
  function Split(s: string, sep: string): (r: seq<string>)
    requires |sep| > 0
    ensures |r| > 0
    ensures Join(r, sep) == s
    ensures forall i, j :: 0 <= i < |r| ==> !OccursAt(r[i], sep, j)
    ensures forall i, k :: 0 <= i < |r| && 0 <= k < |r[i]| ==> r[i][k] in s
    ensures forall i :: 0 <= i < |r| - 1 ==> IndexOf(Join(r[i..], sep), sep) == Some(|r[i]|)
    decreases |s|
  {
    match IndexOf(s, sep)
    case None => [s]
    case Some(i) =>
      var rest := Split(s[i + |sep|..], sep);
      var r := [s[..i]] + rest;
      CutAtFirst(s, sep, i);
      SplitCutStep(s, sep, rest);
      r
  }

  /** The cuts of `Split`: each piece ends where the first separator of
      what remains begins, so the pieces are cut at the leftmost
      occurrences. One more piece in front keeps that. */
  lemma SplitCutStep(s: string, sep: string, rest: seq<string>)
    requires |sep| > 0 && |rest| > 0 && IndexOf(s, sep).Some?
    requires Join([s[..IndexOf(s, sep).value]] + rest, sep) == s
    requires forall m :: 0 <= m < |rest| - 1 ==> IndexOf(Join(rest[m..], sep), sep) == Some(|rest[m]|)
    ensures var r := [s[..IndexOf(s, sep).value]] + rest;
      forall m :: 0 <= m < |r| - 1 ==> IndexOf(Join(r[m..], sep), sep) == Some(|r[m]|)
  {
    var r := [s[..IndexOf(s, sep).value]] + rest;
    forall m | 0 <= m < |r| - 1
      ensures IndexOf(Join(r[m..], sep), sep) == Some(|r[m]|)
    {
      if m == 0 {
        assert r[m..] == r;
      } else {
        assert r[m..] == rest[m - 1..];
      }
    }
  }

  /** `str::split_once`: the text before and after the first occurrence of
      `sep`, or `None` when `sep` does not occur. */
  function SplitOnce(s: string, sep: string): (r: Option<(string, string)>)
    requires |sep| > 0
    ensures r.None? <==> forall j :: !OccursAt(s, sep, j)
    ensures r.Some? ==> r.value.0 + sep + r.value.1 == s
    ensures r.Some? ==> forall j :: !OccursAt(r.value.0, sep, j)
  {
    match IndexOf(s, sep)
    case None => None
    case Some(i) =>
      CutAtFirst(s, sep, i);
      Some((s[..i], s[i + |sep|..]))
  }

  /** Splitting once at a character whose first occurrence is at `i`. */
  lemma SplitOnceAt(s: string, c: char, i: nat)
    requires i < |s| && s[i] == c
    requires forall j :: 0 <= j < i ==> s[j] != c
    ensures SplitOnce(s, [c]) == Some((s[..i], s[i + 1..]))
  {
    OccursAtSingle(s, c, i);
    forall j | 0 <= j < i
      ensures !OccursAt(s, [c], j)
    {
      OccursAtSingle(s, c, j);
    }
    IndexOfFirst(s, [c], i);
  }

  /** `split_once` at a single character `c` either finds none, or splits
      at its first occurrence. */
  lemma FirstSeparator(s: string, c: char)
    ensures SplitOnce(s, [c]).None? <==> c !in s
    ensures SplitOnce(s, [c]).Some? ==> var i := |SplitOnce(s, [c]).value.0|;
      i < |s| && s[i] == c && c !in s[..i]
      && SplitOnce(s, [c]).value == (s[..i], s[i + 1..])
    ensures forall i :: 0 <= i < |s| && s[i] == c && c !in s[..i] ==> SplitOnce(s, [c]) == Some((s[..i], s[i + 1..]))
  {
    forall j | 0 <= j < |s| && s[j] == c && c !in s[..j]
      ensures SplitOnce(s, [c]) == Some((s[..j], s[j + 1..]))
    {
      forall k | 0 <= k < j
        ensures s[k] != c
      {
        assert s[..j][k] == s[k];
      }
      SplitOnceAt(s, c, j);
    }
    match SplitOnce(s, [c])
    case None =>
      forall j | 0 <= j < |s| && s[j] == c
        ensures false
      {
        OccursAtSingle(s, c, j);
      }
    case Some((left, right)) =>
      var i := |left|;
      assert s == left + [c] + right;
      assert s[i] == c && s[..i] == left && s[i + 1..] == right;
      forall j | 0 <= j < |left| && left[j] == c
        ensures false
      {
        OccursAtSingle(left, c, j);
      }
  }

  lemma OccursAtSingle(s: string, c: char, j: int)
    ensures OccursAt(s, [c], j) <==> 0 <= j < |s| && s[j] == c
  {
    if 0 <= j < |s| {
      assert s[j..j + 1] == [s[j]];
    }
  }

  /** `str::lines` for text without carriage returns: the pieces between
      line feeds, where a final line feed does not start an empty line. */
  function Lines(s: string): (r: seq<string>)
    ensures s == [] ==> r == []
    ensures forall i :: 0 <= i < |r| ==> '\n' !in r[i]
    ensures forall i, k :: 0 <= i < |r| && 0 <= k < |r[i]| ==> r[i][k] in s
  {
    var parts := Split(s, "\n");
    assert forall i :: 0 <= i < |parts| ==> '\n' !in parts[i] by {
      forall i, k | 0 <= i < |parts| && 0 <= k < |parts[i]|
        ensures parts[i][k] != '\n'
      {
        OccursAtSingle(parts[i], '\n', k);
      }
    }
    if parts[|parts| - 1] == [] then parts[..|parts| - 1] else parts
  }

  /** Splitting at a single character that no piece contains undoes `Join`. */
  lemma {:induction false} SplitJoin(parts: seq<string>, c: char)
    requires |parts| > 0
    requires forall i :: 0 <= i < |parts| ==> c !in parts[i]
    ensures Split(Join(parts, [c]), [c]) == parts
  {
    var s := Join(parts, [c]);
    if |parts| == 1 {
      forall j | OccursAt(s, [c], j)
        ensures false
      {
        OccursAtSingle(s, c, j);
      }
    } else {
      assert s == parts[0] + [c] + Join(parts[1..], [c]);
      SplitCons(parts[0], c, Join(parts[1..], [c]));
      SplitJoin(parts[1..], c);
      assert parts == [parts[0]] + parts[1..];
    }
  }

  /** Lines joined by line feeds are read back as the same lines (the last
      one must not be empty, since a final line feed ends no line). */
  lemma LinesJoin(lines: seq<string>)
    requires |lines| > 0 && lines[|lines| - 1] != []
    requires forall i :: 0 <= i < |lines| ==> '\n' !in lines[i]
    ensures Lines(Join(lines, "\n")) == lines
  {
    SplitJoin(lines, '\n');
  }

  /** The same with a final line feed after the last line. */
  lemma LinesJoinTerminated(lines: seq<string>)
    requires |lines| > 0
    requires forall i :: 0 <= i < |lines| ==> '\n' !in lines[i]
    ensures Lines(Join(lines, "\n") + "\n") == lines
  {
    var parts := lines + [[]];
    JoinAppend(lines, []);
    assert Join(lines, "\n") + "\n" + [] == Join(lines, "\n") + "\n";
    SplitJoin(parts, '\n');
    assert parts[..|parts| - 1] == lines;
  }

  lemma {:induction false} JoinAppend(parts: seq<string>, last: string)
    requires |parts| > 0
    ensures Join(parts + [last], "\n") == Join(parts, "\n") + "\n" + last
  {
    if |parts| > 1 {
      assert (parts + [last])[1..] == parts[1..] + [last];
      JoinAppend(parts[1..], last);
    }
  }

  /** Splitting text that starts with a piece free of `c` and then `c`. */
  lemma SplitCons(line: string, c: char, rest: string)
    requires c !in line
    ensures Split(line + [c] + rest, [c]) == [line] + Split(rest, [c])
  {
    var s := line + [c] + rest;
    var n := |line|;
    OccursAtSingle(s, c, n);
    forall j | 0 <= j < n
      ensures !OccursAt(s, [c], j)
    {
      OccursAtSingle(s, c, j);
      assert s[j] == line[j];
    }
    IndexOfFirst(s, [c], n);
    assert s[n + 1..] == rest;
    assert s[..n] == line;
  }

  /** A first line followed by a line feed is read off the front. */
  lemma LinesCons(line: string, rest: string)
    requires '\n' !in line
    ensures Lines(line + "\n" + rest) == [line] + Lines(rest)
  {
    SplitCons(line, '\n', rest);
    var parts := Split(rest, "\n");
    var all := [line] + parts;
    assert all[|all| - 1] == parts[|parts| - 1];
    if parts[|parts| - 1] == [] {
      assert all[..|all| - 1] == [line] + parts[..|parts| - 1];
    }
  }

  /** A non-empty text with no line feed is a single line. */
  lemma LinesSingle(line: string)
    requires line != [] && '\n' !in line
    ensures Lines(line) == [line]
  {
    LinesJoin([line]);
  }

  predicate IsDigit(c: char)
  {
    '0' <= c <= '9'
  }

  predicate AllDigits(s: string)
  {
    forall k :: 0 <= k < |s| ==> IsDigit(s[k])
  }

  function DigitValue(c: char): (d: nat)
    requires IsDigit(c)
    ensures d < 10
  {
    c as int - '0' as int
  }

  /** The decimal value of a digit string, most significant digit first. */
  function DigitsValue(s: string): nat
    requires AllDigits(s)
  {
    if s == [] then 0 else DigitsValue(s[..|s| - 1]) * 10 + DigitValue(s[|s| - 1])
  }

  /** `str::parse::<usize>` on a string: a non-empty run of ASCII digits
      and nothing else. */
  function ParseNat(s: string): (r: Option<nat>)
    ensures r.Some? <==> |s| > 0 && AllDigits(s)
  {
    if |s| > 0 && AllDigits(s) then Some(DigitsValue(s)) else None
  }

  function DigitChar(d: nat): (c: char)
    requires d < 10
    ensures IsDigit(c) && DigitValue(c) == d
  {
    ('0' as int + d) as char
  }

  /** The shortest decimal spelling of `n` (`n.to_string()`). */
  function NatToString(n: nat): (r: string)
    ensures |r| > 0 && AllDigits(r)
    ensures DigitsValue(r) == n
  {
    if n < 10 then [DigitChar(n)]
    else
      var r := NatToString(n / 10) + [DigitChar(n % 10)];
      assert r[..|r| - 1] == NatToString(n / 10);
      r
  }

  lemma ParseNatToString(n: nat)
    ensures ParseNat(NatToString(n)) == Some(n)
  {
  }

  /** The number of leading ASCII digits of `s`. */
  function DigitPrefixLength(s: string): (k: nat)
    ensures k <= |s| && AllDigits(s[..k])
    ensures k < |s| ==> !IsDigit(s[k])
  {
    if s == [] || !IsDigit(s[0]) then 0
    else
      var k := 1 + DigitPrefixLength(s[1..]);
      assert s[..k] == [s[0]] + s[1..][..k - 1];
      k
  }

  /** nom's `digit1` followed by `str::parse`: the value of the longest
      non-empty run of leading digits, and the rest of the input. */
  function Digits1(s: string): (r: Option<(nat, string)>)
    ensures r.Some? <==> |s| > 0 && IsDigit(s[0])
    ensures r.Some? ==> |r.value.1| < |s|
  {
    var k := DigitPrefixLength(s);
    if k == 0 then None else Some((DigitsValue(s[..k]), s[k..]))
  }

  /** What `Digits1` reads: the whole leading run of digits, as its decimal
      value, leaving what follows it. */
  lemma Digits1Reads(s: string)
    requires Digits1(s).Some?
    ensures var (n, rest) := Digits1(s).value; var k := |s| - |rest|;
      s[k..] == rest && AllDigits(s[..k]) && n == DigitsValue(s[..k]) && (rest == [] || !IsDigit(rest[0]))
  {
  }

  /** Reading the decimal spelling of `n` back, when a non-digit or nothing
      follows it, yields `n` and leaves what follows. */
  lemma Digits1OfNatToString(n: nat, rest: string)
    requires rest == [] || !IsDigit(rest[0])
    ensures Digits1(NatToString(n) + rest) == Some((n, rest))
  {
    var t := NatToString(n);
    DigitPrefixLengthOf(t, rest);
    assert (t + rest)[..|t|] == t && (t + rest)[|t|..] == rest;
  }

  lemma {:induction false} DigitPrefixLengthOf(t: string, rest: string)
    requires AllDigits(t)
    requires rest == [] || !IsDigit(rest[0])
    ensures DigitPrefixLength(t + rest) == |t|
  {
    if t == [] {
      assert t + rest == rest;
    } else {
      assert (t + rest)[1..] == t[1..] + rest;
      DigitPrefixLengthOf(t[1..], rest);
    }
  }
}
