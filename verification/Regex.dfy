/**
 Leftmost-first matching, as Go's regexp package defines it, for patterns that are a row of captured runs of one
 character class and single characters; and a scanner that finds the same match in one go for the GTID pattern.
 */
module Regex {
  import opened Api
  import opened Names

  datatype Class = Hex | Digit

  /** `Capture` is a group around a greedy one-or-more of a class. */
  datatype Item = Capture(cls: Class) | Literal(c: char)

  datatype Span = Span(from: nat, to: nat)

  predicate Is(cls: Class, c: char) {
    match cls
    case Hex => '0' <= c <= '9' || 'a' <= c <= 'f' || c == '-'
    case Digit => IsDigit(c)
  }

  const UUID_CHARS := "0123456789abcdef-"

  const DIGITS := "0123456789"

  /** The two classes, character by character. */
  lemma ClassesAreLiteral(c: char)
    ensures Is(Hex, c) <==> c in UUID_CHARS
    ensures Is(Digit, c) <==> c in DIGITS
  {
    var d := c as int - '0' as int;
    if 0 <= d < 10 {
      assert DIGITS[d] == c && UUID_CHARS[d] == c;
    }
    var h := c as int - 'a' as int;
    if 0 <= h < 6 {
      assert UUID_CHARS[h + 10] == c;
    }
    assert UUID_CHARS[16] == '-';
  }

  /** The length of the longest run of the class that starts at `i`. */
  function RunLength(cls: Class, s: string, i: nat): (n: nat)
    requires i <= |s|
    ensures i + n <= |s|
    ensures forall k | i <= k < i + n :: Is(cls, s[k])
    ensures i + n < |s| ==> !Is(cls, s[i + n])
    decreases |s| - i
  {
    if i < |s| && Is(cls, s[i]) then 1 + RunLength(cls, s, i + 1) else 0
  }

  /** The groups of the first match at `i` in the order of a backtracking search. */
  function Try(items: seq<Item>, s: string, i: nat): Option<seq<Span>>
    requires i <= |s|
    decreases |items|, |s| + 1
  {
    if items == [] then
      Some([])
    else
      match items[0]
      case Literal(c) => if i < |s| && s[i] == c then Try(items[1..], s, i + 1) else None
      case Capture(cls) => TryRun(items[1..], s, i, RunLength(cls, s, i))
  }

  /** Greedy: the longest run first, then ever shorter ones, but never an empty one. */
  function TryRun(rest: seq<Item>, s: string, i: nat, n: nat): Option<seq<Span>>
    requires i + n <= |s|
    decreases |rest| + 1, n
  {
    if n == 0 then
      None
    else
      match Try(rest, s, i + n)
      case Some(groups) => Some([Span(i, i + n)] + groups)
      case None => TryRun(rest, s, i, n - 1)
  }

  /** Leftmost: the first start at which there is a match at all. */
  function Find(items: seq<Item>, s: string, i: nat): Option<seq<Span>>
    requires i <= |s|
    decreases |s| - i
  {
    match Try(items, s, i)
    case Some(groups) => Some(groups)
    case None => if i == |s| then None else Find(items, s, i + 1)
  }

  /** `([0-9a-f-]+):(\d+)-(\d+)` */
  const GTID_PATTERN := [Capture(Hex), Literal(':')] + NUMERALS

  const NUMERALS := [Capture(Digit), Literal('-'), Capture(Digit)]

  // ----- The scanner -----

  /** Behind the colon at `j`: digits, a dash, a digit. */
  predicate Tail(s: string, j: nat)
    requires j < |s|
  {
    var a := j + 1 + RunLength(Digit, s, j + 1);
    j + 1 < a && a + 1 < |s| && s[a] == '-' && IsDigit(s[a + 1])
  }

  predicate IsAnchor(s: string, j: nat) {
    0 < j < |s| && s[j] == ':' && Is(Hex, s[j - 1]) && Tail(s, j)
  }

  function FirstAnchor(s: string, j: nat): (r: Option<nat>)
    requires j <= |s|
    ensures r.Some? ==> j <= r.value < |s| && IsAnchor(s, r.value) && forall k | j <= k < r.value :: !IsAnchor(s, k)
    ensures r.None? ==> forall k | j <= k < |s| :: !IsAnchor(s, k)
    decreases |s| - j
  {
    if j == |s| then None
    else if IsAnchor(s, j) then Some(j)
    else FirstAnchor(s, j + 1)
  }

  /** Where the run of class characters that ends before `j` begins. */
  function RunStart(s: string, j: nat): (i: nat)
    requires j <= |s|
    ensures i <= j
    ensures forall k | i <= k < j :: Is(Hex, s[k])
    ensures 0 < i ==> !Is(Hex, s[i - 1])
  {
    if j > 0 && Is(Hex, s[j - 1]) then RunStart(s, j - 1) else j
  }

  /** The groups around an anchor: the class run before it and the two runs of digits after it. */
  function GroupsAt(s: string, j: nat): seq<Span>
    requires IsAnchor(s, j)
  {
    var a := j + 1 + RunLength(Digit, s, j + 1);
    [Span(RunStart(s, j), j), Span(j + 1, a), Span(a + 1, a + 1 + RunLength(Digit, s, a + 1))]
  }

  function Scan(s: string): Option<seq<Span>> {
    match FirstAnchor(s, 0)
    case None => None
    case Some(j) => Some(GroupsAt(s, j))
  }

  // ----- The scanner finds what the search finds -----

  /** Where a run is stopped by a character outside the class, no shorter run can be followed by such a character. */
  lemma {:induction false} OnlyLongest(rest: seq<Item>, s: string, i: nat, n: nat, cls: Class)
    requires i + n <= |s| && forall k | i <= k < i + n :: Is(cls, s[k])
    requires rest != [] && rest[0].Literal? && !Is(cls, rest[0].c)
    ensures n > 0 ==> TryRun(rest, s, i, n) ==
                      match Try(rest, s, i + n) case Some(g) => Some([Span(i, i + n)] + g) case None => None
    ensures n == 0 ==> TryRun(rest, s, i, n) == None
  {
    if n > 1 {
      OnlyLongest(rest, s, i, n - 1, cls);
      assert Is(cls, s[i + n - 1]);
    }
  }

  lemma TryCapture(cls: Class, rest: seq<Item>, s: string, i: nat)
    requires i <= |s|
    ensures Try([Capture(cls)] + rest, s, i) == TryRun(rest, s, i, RunLength(cls, s, i))
  {
    assert ([Capture(cls)] + rest)[1..] == rest;
  }

  lemma TryLiteral(c: char, rest: seq<Item>, s: string, i: nat)
    requires i <= |s|
    ensures Try([Literal(c)] + rest, s, i) == if i < |s| && s[i] == c then Try(rest, s, i + 1) else None
  {
    assert ([Literal(c)] + rest)[1..] == rest;
  }

  lemma TryDigits(s: string, i: nat)
    requires i <= |s|
    ensures var n := RunLength(Digit, s, i);
            Try([Capture(Digit)], s, i) == if n == 0 then None else Some([Span(i, i + n)])
  {
    hide RunLength;
    var n := RunLength(Digit, s, i);
    assert [Capture(Digit)] == [Capture(Digit)] + [];
    TryCapture(Digit, [], s, i);
    if n > 0 {
      assert Try([], s, i + n) == Some([]);
      assert [Span(i, i + n)] + [] == [Span(i, i + n)];
    }
  }

  lemma TrySecond(s: string, i: nat)
    requires i <= |s|
    ensures var a := i + RunLength(Digit, s, i);
            Try(NUMERALS, s, i) ==
            if i < a && a + 1 < |s| && s[a] == '-' && IsDigit(s[a + 1])
            then Some([Span(i, a), Span(a + 1, a + 1 + RunLength(Digit, s, a + 1))]) else None
  {
    hide Try, TryRun;
    var n := RunLength(Digit, s, i);
    var a := i + n;
    var rest := [Literal('-')] + [Capture(Digit)];
    assert NUMERALS == [Capture(Digit)] + rest;
    TryCapture(Digit, rest, s, i);
    OnlyLongest(rest, s, i, n, Digit);
    TryLiteral('-', [Capture(Digit)], s, a);
    if a < |s| && s[a] == '-' {
      TryDigits(s, a + 1);
      var m := RunLength(Digit, s, a + 1);
      assert [Span(i, a)] + [Span(a + 1, a + 1 + m)] == [Span(i, a), Span(a + 1, a + 1 + m)];
    }
  }

  /** A match at `i` needs a class run from `i` that ends in an anchor. */
  lemma TryPattern(s: string, i: nat)
    requires i <= |s|
    ensures var j := i + RunLength(Hex, s, i);
            Try(GTID_PATTERN, s, i) ==
            if i < j && IsAnchor(s, j) then Some([Span(i, j)] + GroupsAt(s, j)[1..]) else None
  {
    hide Try, TryRun, RunLength;
    var n := RunLength(Hex, s, i);
    var j := i + n;
    var rest := [Literal(':')] + NUMERALS;
    assert GTID_PATTERN == [Capture(Hex)] + rest;
    TryCapture(Hex, rest, s, i);
    OnlyLongest(rest, s, i, n, Hex);
    TryLiteral(':', NUMERALS, s, j);
    if i < j < |s| && s[j] == ':' {
      assert Is(Hex, s[j - 1]);
      TrySecond(s, j + 1);
    }
  }

  lemma RunReaches(cls: Class, s: string, i: nat, j: nat)
    requires i <= j <= |s| && (forall k | i <= k < j :: Is(cls, s[k])) && (j < |s| ==> !Is(cls, s[j]))
    ensures RunLength(cls, s, i) == j - i
    decreases j - i
  {
    if i < j {
      RunReaches(cls, s, i + 1, j);
    }
  }

  lemma GroupsFrom(s: string, j: nat)
    requires IsAnchor(s, j)
    ensures [Span(RunStart(s, j), j)] + GroupsAt(s, j)[1..] == GroupsAt(s, j)
  {
  }

  /** From `i` on, the search finds the groups of the first anchor whose class run begins at `i` or later. */
  lemma {:induction false} FindIsScan(s: string, i: nat)
    requires i <= |s|
    requires match FirstAnchor(s, 0) case None => true case Some(j) => i <= RunStart(s, j)
    ensures Find(GTID_PATTERN, s, i) == Scan(s)
    decreases |s| - i
  {
    hide Try, FirstAnchor, RunStart, RunLength, GroupsAt, Tail, GTID_PATTERN;
    TryPattern(s, i);
    match FirstAnchor(s, 0)
    case None =>
      if i < |s| { FindIsScan(s, i + 1); }
    case Some(j) =>
      var start := RunStart(s, j);
      assert start < j;
      if i == start {
        RunReaches(Hex, s, i, j);
        GroupsFrom(s, j);
      } else {
        assert !Is(Hex, s[start - 1]);
        FindIsScan(s, i + 1);
      }
  }

  /** The leftmost-first match of the GTID pattern is the one the scanner finds, for every string. */
  lemma RegexIsScanner(s: string)
    ensures Find(GTID_PATTERN, s, 0) == Scan(s)
  {
    FindIsScan(s, 0);
  }

  // ----- What a match is, without reference to a search -----

  /** The text from `i` to `b` has the form of the pattern, with the colon at `j` and the second dash at `a`. */
  ghost predicate Reads(s: string, i: nat, j: nat, a: nat, b: nat) {
    && i < j < |s| && s[j] == ':' && (forall k | i <= k < j :: Is(Hex, s[k]))
    && j + 1 < a < |s| && s[a] == '-' && (forall k | j < k < a :: IsDigit(s[k]))
    && a + 1 < b <= |s| && (forall k | a < k < b :: IsDigit(s[k]))
  }

  lemma ReadsAnchor(s: string, i: nat, j: nat, a: nat, b: nat)
    requires Reads(s, i, j, a, b)
    ensures IsAnchor(s, j) && RunLength(Digit, s, j + 1) == a - (j + 1) && b <= a + 1 + RunLength(Digit, s, a + 1)
  {
    hide RunLength;
    RunReaches(Digit, s, j + 1, a);
    assert Is(Hex, s[j - 1]) && IsDigit(s[a + 1]);
    var end := a + 1 + RunLength(Digit, s, a + 1);
    assert end < |s| ==> !IsDigit(s[end]);
  }

  /** Anything that reads like the pattern starts no earlier than the found match, and from the same start it is no longer. */
  lemma ReadsAfter(s: string, i: nat, j: nat, a: nat, b: nat, at: nat)
    requires Reads(s, i, j, a, b) && FirstAnchor(s, 0) == Some(at)
    ensures var i0 := RunStart(s, at); var a0 := at + 1 + RunLength(Digit, s, at + 1);
            i0 <= i && (i == i0 ==> j == at && a == a0 && b <= a0 + 1 + RunLength(Digit, s, a0 + 1))
  {
    hide RunLength, RunStart, FirstAnchor;
    ReadsAnchor(s, i, j, a, b);
    assert at <= j;
    var i0 := RunStart(s, at);
    assert s[at] == ':' && !Is(Hex, ':');
  }

  /**
   A match is found exactly if some part of the text reads like the pattern. The match found reads like it,
   starts leftmost, and is the longest from there.
   */
  lemma LeftmostAndLongest(s: string)
    ensures Find(GTID_PATTERN, s, 0).Some? <==> exists i: nat, j: nat, a: nat, b: nat :: Reads(s, i, j, a, b)
    ensures Find(GTID_PATTERN, s, 0).Some? ==>
              var g := Find(GTID_PATTERN, s, 0).value;
              && |g| == 3 && Reads(s, g[0].from, g[0].to, g[1].to, g[2].to)
              && g[1].from == g[0].to + 1 && g[2].from == g[1].to + 1
              && (forall i: nat, j: nat, a: nat, b: nat | Reads(s, i, j, a, b) ::
                    g[0].from <= i && (i == g[0].from ==> j == g[0].to && a == g[1].to && b <= g[2].to))
  {
    hide Find, RunLength, RunStart, FirstAnchor;
    RegexIsScanner(s);
    forall i: nat, j: nat, a: nat, b: nat | Reads(s, i, j, a, b) ensures FirstAnchor(s, 0).Some? {
      ReadsAnchor(s, i, j, a, b);
    }
    if FirstAnchor(s, 0).Some? {
      var at := FirstAnchor(s, 0).value;
      var g := GroupsAt(s, at);
      GroupsRead(s, at);
      forall i: nat, j: nat, a: nat, b: nat | Reads(s, i, j, a, b)
        ensures g[0].from <= i && (i == g[0].from ==> j == g[0].to && a == g[1].to && b <= g[2].to)
      {
        ReadsAfter(s, i, j, a, b, at);
      }
    }
  }

  lemma GroupsRead(s: string, j: nat)
    requires IsAnchor(s, j)
    ensures var g := GroupsAt(s, j); Reads(s, g[0].from, g[0].to, g[1].to, g[2].to)
  {
    hide RunLength, RunStart;
    var i := RunStart(s, j);
    var a := j + 1 + RunLength(Digit, s, j + 1);
    forall k | j < k < a ensures IsDigit(s[k]) { assert Is(Digit, s[k]); }
    var b := a + 1 + RunLength(Digit, s, a + 1);
    forall k | a < k < b ensures IsDigit(s[k]) { assert Is(Digit, s[k]); }
    assert Is(Digit, s[a + 1]);
  }
}
