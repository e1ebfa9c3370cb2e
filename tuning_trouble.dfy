/** Tuning trouble (day-06/src/main.rs): the start of a packet (or of a
    message) is the position just after the first run of 4 (or 14)
    pairwise different characters. The source scans the datastream once,
    keeping the last characters in a queue. */
module TuningTrouble {
  import opened Common

  /** Why the scan aborts: the stream is shorter than the window (the
      setup's `unwrap`), or no window is free of repeats ("No
      start-of-packet marker found"). */
  datatype MarkerError = TooShort | NoMarker

  /** No character occurs twice in `s`. */
  predicate Distinct(s: seq<char>)
  {
    forall a, b :: 0 <= a < b < |s| ==> s[a] != s[b]
  }

  function Elements(s: seq<char>): set<char>
  {
    set c | c in s
  }

  /** Collecting a sequence into a set loses an element exactly when the
      sequence repeats one. */
  lemma {:induction false} ElementsSize(s: seq<char>)
    ensures |Elements(s)| <= |s|
    ensures |Elements(s)| == |s| <==> Distinct(s)
  {
    if s != [] {
      var x, t := s[0], s[1..];
      ElementsSize(t);
      assert Elements(s) == {x} + Elements(t);
      if x in t {
        var k :| 0 <= k < |t| && t[k] == x;
        assert s[0] == s[k + 1];
        assert Elements(s) == Elements(t);
      } else {
        assert x !in Elements(t);
        DistinctCons(s);
      }
    } else {
      assert Elements(s) == {};
    }
  }

  /** A sequence whose head does not recur is distinct exactly when its
      tail is. */
  lemma DistinctCons(s: seq<char>)
    requires s != [] && s[0] !in s[1..]
    ensures Distinct(s) <==> Distinct(s[1..])
  {
    var t := s[1..];
    if Distinct(t) {
      forall a, b | 0 <= a < b < |s|
        ensures s[a] != s[b]
      {
        if a > 0 {
          assert s[a] == t[a - 1] && s[b] == t[b - 1];
        } else {
          assert s[b] == t[b - 1];
        }
      }
    }
    if Distinct(s) {
      forall a, b | 0 <= a < b < |t|
        ensures t[a] != t[b]
      {
        assert t[a] == s[a + 1] && t[b] == s[b + 1];
      }
    }
  }

  /** `contains_all_unique_chars`: the buffer's set of characters is as
      large as the buffer. */
  function ContainsAllUniqueChars(buffer: seq<char>): (r: bool)
    ensures r <==> Distinct(buffer)
  {
    ElementsSize(buffer);
    |Elements(buffer)| == |buffer|
  }

  /** The `width` characters before position `i` are pairwise different. */
  predicate IsMarkerEnd(input: string, width: nat, i: int)
  {
    width <= i <= |input| && Distinct(input[i - width..i])
  }

  /** `i` is the first position at which a marker ends. */
  predicate IsFirstMarker(input: string, width: nat, i: int)
  {
    IsMarkerEnd(input, width, i) && forall j :: width <= j < i ==> !IsMarkerEnd(input, width, j)
  }

  lemma FirstMarkerUnique(input: string, width: nat, i: int, j: int)
    requires IsFirstMarker(input, width, i) && IsFirstMarker(input, width, j)
    ensures i == j
  {
  }

  /** The marker scan of `part_1` (width 4) and `part_2` (width 14): fill a
      queue with the first `width` characters, then slide it one character
      at a time, returning the number of characters consumed as soon as
      the queue holds no repeat. */
  method FindMarker(input: string, width: nat) returns (r: Result<nat, MarkerError>)
    ensures r == Err(TooShort) <==> |input| < width
    ensures r.Ok? ==> IsFirstMarker(input, width, r.value)
    ensures r == Err(NoMarker) <==> width <= |input| && forall j :: width <= j <= |input| ==> !IsMarkerEnd(input, width, j)
  {
    var buffer: seq<char> := [];
    var index := 0;
    // setup: `width` calls of `chars.next().unwrap()`
    var n := 0;
    while n < width
      invariant 0 <= n <= width && index == n && index <= |input|
      invariant buffer == input[..index]
    {
      if index == |input| {
        return Err(TooShort);
      }
      buffer := buffer + [input[index]];
      index := index + 1;
      n := n + 1;
    }
    assert input[index - width..index] == buffer;
    if ContainsAllUniqueChars(buffer) {
      MarkerFound(input, width, index);
      return Ok(index);
    }
    NoMarkerYet(input, width, index);
    while index < |input|
      invariant width <= index <= |input| && width > 0
      invariant buffer == input[index - width..index]
      invariant forall j :: width <= j <= index ==> !IsMarkerEnd(input, width, j)
    {
      var next := input[index];
      SlideWindow(input, width, index);
      buffer := buffer[1..];
      buffer := buffer + [next];
      index := index + 1;
      if ContainsAllUniqueChars(buffer) {
        MarkerFound(input, width, index);
        return Ok(index);
      }
      NoMarkerYet(input, width, index);
    }
    return Err(NoMarker);
  }

  /** A marker end with none before it is the first one, and then the
      stream does have a marker. */
  lemma MarkerFound(input: string, width: nat, i: int)
    requires IsMarkerEnd(input, width, i)
    requires forall j :: width <= j < i ==> !IsMarkerEnd(input, width, j)
    ensures IsFirstMarker(input, width, i)
    ensures !forall j :: width <= j <= |input| ==> !IsMarkerEnd(input, width, j)
  {
  }

  /** A window with a repeat extends the stretch without markers. */
  lemma NoMarkerYet(input: string, width: nat, i: int)
    requires width <= i <= |input| && !Distinct(input[i - width..i])
    requires forall j :: width <= j < i ==> !IsMarkerEnd(input, width, j)
    ensures forall j :: width <= j <= i ==> !IsMarkerEnd(input, width, j)
  {
  }

  /** Dropping the oldest character of a window and appending the next one
      gives the window one position further on. */
  lemma SlideWindow(input: string, width: nat, i: int)
    requires 0 < width <= i < |input|
    ensures input[i - width..i][1..] + [input[i]] == input[i + 1 - width..i + 1]
  {
  }

  /** Part 1: the start-of-packet marker, four different characters. */
  method Part1(input: string) returns (r: Result<nat, MarkerError>)
    ensures r == Err(TooShort) <==> |input| < 4
    ensures r.Ok? ==> IsFirstMarker(input, 4, r.value)
    ensures r == Err(NoMarker) <==> 4 <= |input| && forall j :: 4 <= j <= |input| ==> !IsMarkerEnd(input, 4, j)
  {
    r := FindMarker(input, 4);
  }

  /** Part 2: the start-of-message marker, fourteen different characters. */
  method Part2(input: string) returns (r: Result<nat, MarkerError>)
    ensures r == Err(TooShort) <==> |input| < 14
    ensures r.Ok? ==> IsFirstMarker(input, 14, r.value)
    ensures r == Err(NoMarker) <==> 14 <= |input| && forall j :: 14 <= j <= |input| ==> !IsMarkerEnd(input, 14, j)
  {
    r := FindMarker(input, 14);
  }

  /** A window whose characters differ pairwise ends a marker. */
  lemma MarkerAt(input: string, width: nat, i: int)
    requires width <= i <= |input|
    requires forall a, b :: i - width <= a < b < i ==> input[a] != input[b]
    ensures IsMarkerEnd(input, width, i)
  {
    var w := input[i - width..i];
    forall a, b | 0 <= a < b < |w|
      ensures w[a] != w[b]
    {
      assert w[a] == input[i - width + a] && w[b] == input[i - width + b];
    }
  }

  /** A window that repeats a character ends no marker. */
  lemma NoMarkerAt(input: string, width: nat, i: int, a: int, b: int)
    requires width <= i <= |input|
    requires i - width <= a < b < i && input[a] == input[b]
    ensures !IsMarkerEnd(input, width, i)
  {
    var w := input[i - width..i];
    assert w[a - (i - width)] == input[a] && w[b - (i - width)] == input[b];
  }

  lemma Sample1Width4Repeats()
    ensures forall j :: 4 <= j < 7 ==> !IsMarkerEnd("mjqjpqmgbljsphdztnvjfqwrcgsmlb", 4, j)
  {
    var s := "mjqjpqmgbljsphdztnvjfqwrcgsmlb";
    forall j | 4 <= j < 7
      ensures !IsMarkerEnd(s, 4, j)
    {
      if j < 6 {
        NoMarkerAt(s, 4, j, 1, 3);
      } else {
        NoMarkerAt(s, 4, j, 2, 5);
      }
    }
  }

  lemma Sample1Width4()
    ensures IsFirstMarker("mjqjpqmgbljsphdztnvjfqwrcgsmlb", 4, 7)
  {
    MarkerAt("mjqjpqmgbljsphdztnvjfqwrcgsmlb", 4, 7);
    Sample1Width4Repeats();
  }

  lemma Sample1Width14Repeats1()
    ensures forall j :: 14 <= j < 17 ==> !IsMarkerEnd("mjqjpqmgbljsphdztnvjfqwrcgsmlb", 14, j)
  {
    var s := "mjqjpqmgbljsphdztnvjfqwrcgsmlb";
    forall j | 14 <= j < 17
      ensures !IsMarkerEnd(s, 14, j)
    {
      if j == 14 {
        NoMarkerAt(s, 14, j, 0, 6);
      } else if j == 15 {
        NoMarkerAt(s, 14, j, 1, 3);
      } else {
        NoMarkerAt(s, 14, j, 2, 5);
      }
    }
  }

  lemma Sample1Width14Repeats2()
    ensures forall j :: 17 <= j < 19 ==> !IsMarkerEnd("mjqjpqmgbljsphdztnvjfqwrcgsmlb", 14, j)
  {
    var s := "mjqjpqmgbljsphdztnvjfqwrcgsmlb";
    forall j | 17 <= j < 19
      ensures !IsMarkerEnd(s, 14, j)
    {
      if j == 17 {
        NoMarkerAt(s, 14, j, 3, 10);
      } else {
        NoMarkerAt(s, 14, j, 4, 12);
      }
    }
  }

  lemma Sample1Width14()
    ensures IsFirstMarker("mjqjpqmgbljsphdztnvjfqwrcgsmlb", 14, 19)
  {
    MarkerAt("mjqjpqmgbljsphdztnvjfqwrcgsmlb", 14, 19);
    Sample1Width14Repeats1();
    Sample1Width14Repeats2();
  }

  lemma Sample2Width4()
    ensures IsFirstMarker("bvwbjplbgvbhsrlpgdmjqwftvncz", 4, 5)
  {
    var s := "bvwbjplbgvbhsrlpgdmjqwftvncz";
    MarkerAt(s, 4, 5);
    forall j | 4 <= j < 5
      ensures !IsMarkerEnd(s, 4, j)
    {
      NoMarkerAt(s, 4, j, 0, 3);
    }
  }

  lemma Sample2Width14Repeats1()
    ensures forall j :: 14 <= j < 19 ==> !IsMarkerEnd("bvwbjplbgvbhsrlpgdmjqwftvncz", 14, j)
  {
    var s := "bvwbjplbgvbhsrlpgdmjqwftvncz";
    forall j | 14 <= j < 19
      ensures !IsMarkerEnd(s, 14, j)
    {
      if j == 14 {
        NoMarkerAt(s, 14, j, 0, 3);
      } else if j == 15 {
        NoMarkerAt(s, 14, j, 1, 9);
      } else if j == 16 {
        NoMarkerAt(s, 14, j, 3, 7);
      } else if j == 17 {
        NoMarkerAt(s, 14, j, 3, 7);
      } else {
        NoMarkerAt(s, 14, j, 5, 15);
      }
    }
  }

  lemma Sample2Width14Repeats2()
    ensures forall j :: 19 <= j < 23 ==> !IsMarkerEnd("bvwbjplbgvbhsrlpgdmjqwftvncz", 14, j)
  {
    var s := "bvwbjplbgvbhsrlpgdmjqwftvncz";
    forall j | 19 <= j < 23
      ensures !IsMarkerEnd(s, 14, j)
    {
      if j == 19 {
        NoMarkerAt(s, 14, j, 5, 15);
      } else if j == 20 {
        NoMarkerAt(s, 14, j, 6, 14);
      } else if j == 21 {
        NoMarkerAt(s, 14, j, 7, 10);
      } else {
        NoMarkerAt(s, 14, j, 8, 16);
      }
    }
  }

  lemma Sample2Width14()
    ensures IsFirstMarker("bvwbjplbgvbhsrlpgdmjqwftvncz", 14, 23)
  {
    MarkerAt("bvwbjplbgvbhsrlpgdmjqwftvncz", 14, 23);
    Sample2Width14Repeats1();
    Sample2Width14Repeats2();
  }

  lemma Sample3Width4()
    ensures IsFirstMarker("nppdvjthqldpwncqszvftbrmjlhg", 4, 6)
  {
    var s := "nppdvjthqldpwncqszvftbrmjlhg";
    MarkerAt(s, 4, 6);
    forall j | 4 <= j < 6
      ensures !IsMarkerEnd(s, 4, j)
    {
      if j == 4 {
        NoMarkerAt(s, 4, j, 1, 2);
      } else {
        NoMarkerAt(s, 4, j, 1, 2);
      }
    }
  }

  lemma Sample3Width14Repeats1()
    ensures forall j :: 14 <= j < 19 ==> !IsMarkerEnd("nppdvjthqldpwncqszvftbrmjlhg", 14, j)
  {
    var s := "nppdvjthqldpwncqszvftbrmjlhg";
    forall j | 14 <= j < 19
      ensures !IsMarkerEnd(s, 14, j)
    {
      if j == 14 {
        NoMarkerAt(s, 14, j, 0, 13);
      } else if j == 15 {
        NoMarkerAt(s, 14, j, 1, 2);
      } else if j == 16 {
        NoMarkerAt(s, 14, j, 2, 11);
      } else if j == 17 {
        NoMarkerAt(s, 14, j, 3, 10);
      } else {
        NoMarkerAt(s, 14, j, 8, 15);
      }
    }
  }

  lemma Sample3Width14Repeats2()
    ensures forall j :: 19 <= j < 23 ==> !IsMarkerEnd("nppdvjthqldpwncqszvftbrmjlhg", 14, j)
  {
    var s := "nppdvjthqldpwncqszvftbrmjlhg";
    forall j | 19 <= j < 23
      ensures !IsMarkerEnd(s, 14, j)
    {
      if j == 19 {
        NoMarkerAt(s, 14, j, 8, 15);
      } else if j == 20 {
        NoMarkerAt(s, 14, j, 8, 15);
      } else if j == 21 {
        NoMarkerAt(s, 14, j, 8, 15);
      } else {
        NoMarkerAt(s, 14, j, 8, 15);
      }
    }
  }

  lemma Sample3Width14()
    ensures IsFirstMarker("nppdvjthqldpwncqszvftbrmjlhg", 14, 23)
  {
    MarkerAt("nppdvjthqldpwncqszvftbrmjlhg", 14, 23);
    Sample3Width14Repeats1();
    Sample3Width14Repeats2();
  }

  lemma Sample4Width4Repeats1()
    ensures forall j :: 4 <= j < 9 ==> !IsMarkerEnd("nznrnfrfntjfmvfwmzdfjlvtqnbhcprsg", 4, j)
  {
    var s := "nznrnfrfntjfmvfwmzdfjlvtqnbhcprsg";
    forall j | 4 <= j < 9
      ensures !IsMarkerEnd(s, 4, j)
    {
      if j == 4 {
        NoMarkerAt(s, 4, j, 0, 2);
      } else if j == 5 {
        NoMarkerAt(s, 4, j, 2, 4);
      } else if j == 6 {
        NoMarkerAt(s, 4, j, 2, 4);
      } else if j == 7 {
        NoMarkerAt(s, 4, j, 3, 6);
      } else {
        NoMarkerAt(s, 4, j, 5, 7);
      }
    }
  }

  lemma Sample4Width4Repeats2()
    ensures forall j :: 9 <= j < 10 ==> !IsMarkerEnd("nznrnfrfntjfmvfwmzdfjlvtqnbhcprsg", 4, j)
  {
    var s := "nznrnfrfntjfmvfwmzdfjlvtqnbhcprsg";
    forall j | 9 <= j < 10
      ensures !IsMarkerEnd(s, 4, j)
    {
      NoMarkerAt(s, 4, j, 5, 7);
    }
  }

  lemma Sample4Width4()
    ensures IsFirstMarker("nznrnfrfntjfmvfwmzdfjlvtqnbhcprsg", 4, 10)
  {
    MarkerAt("nznrnfrfntjfmvfwmzdfjlvtqnbhcprsg", 4, 10);
    Sample4Width4Repeats1();
    Sample4Width4Repeats2();
  }

  lemma Sample4Width14Repeats1()
    ensures forall j :: 14 <= j < 19 ==> !IsMarkerEnd("nznrnfrfntjfmvfwmzdfjlvtqnbhcprsg", 14, j)
  {
    var s := "nznrnfrfntjfmvfwmzdfjlvtqnbhcprsg";
    forall j | 14 <= j < 19
      ensures !IsMarkerEnd(s, 14, j)
    {
      if j == 14 {
        NoMarkerAt(s, 14, j, 0, 2);
      } else if j == 15 {
        NoMarkerAt(s, 14, j, 2, 4);
      } else if j == 16 {
        NoMarkerAt(s, 14, j, 2, 4);
      } else if j == 17 {
        NoMarkerAt(s, 14, j, 3, 6);
      } else {
        NoMarkerAt(s, 14, j, 4, 8);
      }
    }
  }

  lemma Sample4Width14Repeats2()
    ensures forall j :: 19 <= j < 24 ==> !IsMarkerEnd("nznrnfrfntjfmvfwmzdfjlvtqnbhcprsg", 14, j)
  {
    var s := "nznrnfrfntjfmvfwmzdfjlvtqnbhcprsg";
    forall j | 19 <= j < 24
      ensures !IsMarkerEnd(s, 14, j)
    {
      if j == 19 {
        NoMarkerAt(s, 14, j, 5, 7);
      } else if j == 20 {
        NoMarkerAt(s, 14, j, 7, 11);
      } else if j == 21 {
        NoMarkerAt(s, 14, j, 7, 11);
      } else if j == 22 {
        NoMarkerAt(s, 14, j, 10, 20);
      } else {
        NoMarkerAt(s, 14, j, 10, 20);
      }
    }
  }

  lemma Sample4Width14Repeats3()
    ensures forall j :: 24 <= j < 29 ==> !IsMarkerEnd("nznrnfrfntjfmvfwmzdfjlvtqnbhcprsg", 14, j)
  {
    var s := "nznrnfrfntjfmvfwmzdfjlvtqnbhcprsg";
    forall j | 24 <= j < 29
      ensures !IsMarkerEnd(s, 14, j)
    {
      if j == 24 {
        NoMarkerAt(s, 14, j, 10, 20);
      } else if j == 25 {
        NoMarkerAt(s, 14, j, 11, 14);
      } else if j == 26 {
        NoMarkerAt(s, 14, j, 12, 16);
      } else if j == 27 {
        NoMarkerAt(s, 14, j, 13, 22);
      } else {
        NoMarkerAt(s, 14, j, 14, 19);
      }
    }
  }

  lemma Sample4Width14()
    ensures IsFirstMarker("nznrnfrfntjfmvfwmzdfjlvtqnbhcprsg", 14, 29)
  {
    MarkerAt("nznrnfrfntjfmvfwmzdfjlvtqnbhcprsg", 14, 29);
    Sample4Width14Repeats1();
    Sample4Width14Repeats2();
    Sample4Width14Repeats3();
  }

  lemma Sample5Width4Repeats1()
    ensures forall j :: 4 <= j < 9 ==> !IsMarkerEnd("zcfzfwzzqfrljwzlrfnpqdbhtmscgvjw", 4, j)
  {
    var s := "zcfzfwzzqfrljwzlrfnpqdbhtmscgvjw";
    forall j | 4 <= j < 9
      ensures !IsMarkerEnd(s, 4, j)
    {
      if j == 4 {
        NoMarkerAt(s, 4, j, 0, 3);
      } else if j == 5 {
        NoMarkerAt(s, 4, j, 2, 4);
      } else if j == 6 {
        NoMarkerAt(s, 4, j, 2, 4);
      } else if j == 7 {
        NoMarkerAt(s, 4, j, 3, 6);
      } else {
        NoMarkerAt(s, 4, j, 6, 7);
      }
    }
  }

  lemma Sample5Width4Repeats2()
    ensures forall j :: 9 <= j < 11 ==> !IsMarkerEnd("zcfzfwzzqfrljwzlrfnpqdbhtmscgvjw", 4, j)
  {
    var s := "zcfzfwzzqfrljwzlrfnpqdbhtmscgvjw";
    forall j | 9 <= j < 11
      ensures !IsMarkerEnd(s, 4, j)
    {
      if j == 9 {
        NoMarkerAt(s, 4, j, 6, 7);
      } else {
        NoMarkerAt(s, 4, j, 6, 7);
      }
    }
  }

  lemma Sample5Width4()
    ensures IsFirstMarker("zcfzfwzzqfrljwzlrfnpqdbhtmscgvjw", 4, 11)
  {
    MarkerAt("zcfzfwzzqfrljwzlrfnpqdbhtmscgvjw", 4, 11);
    Sample5Width4Repeats1();
    Sample5Width4Repeats2();
  }

  lemma Sample5Width14Repeats1()
    ensures forall j :: 14 <= j < 19 ==> !IsMarkerEnd("zcfzfwzzqfrljwzlrfnpqdbhtmscgvjw", 14, j)
  {
    var s := "zcfzfwzzqfrljwzlrfnpqdbhtmscgvjw";
    forall j | 14 <= j < 19
      ensures !IsMarkerEnd(s, 14, j)
    {
      if j == 14 {
        NoMarkerAt(s, 14, j, 0, 3);
      } else if j == 15 {
        NoMarkerAt(s, 14, j, 2, 4);
      } else if j == 16 {
        NoMarkerAt(s, 14, j, 2, 4);
      } else if j == 17 {
        NoMarkerAt(s, 14, j, 3, 6);
      } else {
        NoMarkerAt(s, 14, j, 4, 9);
      }
    }
  }

  lemma Sample5Width14Repeats2()
    ensures forall j :: 19 <= j < 24 ==> !IsMarkerEnd("zcfzfwzzqfrljwzlrfnpqdbhtmscgvjw", 14, j)
  {
    var s := "zcfzfwzzqfrljwzlrfnpqdbhtmscgvjw";
    forall j | 19 <= j < 24
      ensures !IsMarkerEnd(s, 14, j)
    {
      if j == 19 {
        NoMarkerAt(s, 14, j, 5, 13);
      } else if j == 20 {
        NoMarkerAt(s, 14, j, 6, 7);
      } else if j == 21 {
        NoMarkerAt(s, 14, j, 7, 14);
      } else if j == 22 {
        NoMarkerAt(s, 14, j, 8, 20);
      } else {
        NoMarkerAt(s, 14, j, 9, 17);
      }
    }
  }

  lemma Sample5Width14Repeats3()
    ensures forall j :: 24 <= j < 26 ==> !IsMarkerEnd("zcfzfwzzqfrljwzlrfnpqdbhtmscgvjw", 14, j)
  {
    var s := "zcfzfwzzqfrljwzlrfnpqdbhtmscgvjw";
    forall j | 24 <= j < 26
      ensures !IsMarkerEnd(s, 14, j)
    {
      if j == 24 {
        NoMarkerAt(s, 14, j, 10, 16);
      } else {
        NoMarkerAt(s, 14, j, 11, 15);
      }
    }
  }

  lemma Sample5Width14()
    ensures IsFirstMarker("zcfzfwzzqfrljwzlrfnpqdbhtmscgvjw", 14, 26)
  {
    MarkerAt("zcfzfwzzqfrljwzlrfnpqdbhtmscgvjw", 14, 26);
    Sample5Width14Repeats1();
    Sample5Width14Repeats2();
    Sample5Width14Repeats3();
  }
}
