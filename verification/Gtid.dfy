/**
 Parsing GTID texts and choosing the member with the highest end.
 */
module Gtid {
  import opened Api
  import opened Names
  import opened Regex

  datatype GTID = GTID(host: string, uuid: string, serverId: int, start: int64, end: int64)

  const ZERO := GTID("", "", 0, 0, 0)

  const MAX_INT64 := 0x7FFF_FFFF_FFFF_FFFF

  datatype Error = ZeroOrOne | InvalidFormat(text: string)

  datatype Result<+T> = Ok(value: T) | Err(error: Error)

  /** strconv.ParseInt in base ten, for a text of digits: only the range can be wrong. */
  function ParseInt(digits: string): (r: Option<int64>)
    requires AllDigits(digits)
  {
    if Value(digits) <= MAX_INT64 then Some(Value(digits)) else None
  }

  /** The three groups of the match, as text. */
  datatype Groups = Groups(uuid: string, start: string, end: string)

  function Submatch(text: string): (r: Option<Groups>)
    ensures r.Some? ==> AllDigits(r.value.start) && AllDigits(r.value.end)
  {
    RegexIsScanner(text);
    LeftmostAndLongest(text);
    match Find(GTID_PATTERN, text, 0)
    case None => None
    case Some(g) =>
      Some(Groups(text[g[0].from..g[0].to], text[g[1].from..g[1].to], text[g[2].from..g[2].to]))
  }

  function ParseGTID(text: string): Result<GTID> {
    if text == "0" || text == "1" then
      Err(ZeroOrOne)
    else
      match Submatch(text)
      case None => Err(InvalidFormat(text))
      case Some(groups) =>
        match (ParseInt(groups.start), ParseInt(groups.end))
        case (Some(start), Some(end)) => Ok(GTID("", groups.uuid, 0, start, end))
        case _ => Err(InvalidFormat(text))
  }

  /** Which error, for which texts. */
  lemma ErrorsIff(text: string)
    ensures ParseGTID(text) == Err(ZeroOrOne) <==> text in ["0", "1"]
    ensures ParseGTID(text).Err? && text !in ["0", "1"] ==> ParseGTID(text) == Err(InvalidFormat(text))
  {
    hide Submatch;
    assert text == "0" ==> text in ["0", "1"] by { assert ["0", "1"][0] == "0"; }
    assert text == "1" ==> text in ["0", "1"] by { assert ["0", "1"][1] == "1"; }
  }

  // ----- What is accepted -----

  /** The text as the scanner cuts it at its first anchor. */
  ghost predicate CutsInto(text: string, uuid: string, start: string, end: string) {
    && FirstAnchor(text, 0).Some?
    && var j := FirstAnchor(text, 0).value;
       var a := j + 1 + RunLength(Digit, text, j + 1);
       && uuid == text[RunStart(text, j)..j]
       && start == text[j + 1..a]
       && end == text[a + 1..a + 1 + RunLength(Digit, text, a + 1)]
  }

  lemma SubmatchCuts(text: string)
    ensures match Submatch(text)
            case None => forall j | 0 <= j < |text| :: !IsAnchor(text, j)
            case Some(g) => CutsInto(text, g.uuid, g.start, g.end)
  {
    hide Find, FirstAnchor, RunLength, RunStart, IsAnchor;
    RegexIsScanner(text);
  }

  /**
   A text is accepted exactly if it has an anchor and both numerals at the first one are at most 2^63-1, leading
   zeros or not; later places where the pattern would fit are never looked at.
   */
  lemma AcceptedIff(text: string, g: GTID)
    ensures ParseGTID(text) == Ok(g) <==>
            exists start, end ::
              && CutsInto(text, g.uuid, start, end)
              && AllDigits(start) && AllDigits(end)
              && Value(start) == g.start && Value(end) == g.end
              && g.host == "" && g.serverId == 0
  {
    hide FirstAnchor, RunLength, RunStart, Value, Find;
    SubmatchCuts(text);
    if ParseGTID(text) == Ok(g) {
      var groups := Submatch(text).value;
      assert CutsInto(text, groups.uuid, groups.start, groups.end);
    }
    forall start, end | CutsInto(text, g.uuid, start, end) && AllDigits(start) && AllDigits(end)
                        && Value(start) == g.start && Value(end) == g.end && g.host == "" && g.serverId == 0
      ensures ParseGTID(text) == Ok(g)
    {
      var j := FirstAnchor(text, 0).value;
      assert |text| > 1;
    }
  }

  // ----- Round trip -----

  predicate IsUuid(s: string) {
    s != "" && forall i | 0 <= i < |s| :: s[i] in UUID_CHARS
  }

  /** The text form, as `%s:%d-%d` prints it. */
  function Print(uuid: string, start: nat, end: nat): string {
    uuid + ":" + Decimal(start) + "-" + Decimal(end)
  }

  /** Text that may stand before: no colon, and nothing that would join the UUID. */
  predicate Lead(s: string) {
    ':' !in s && (s != "" ==> s[|s| - 1] !in UUID_CHARS)
  }

  /** Text that may stand after: nothing that would join the last numeral. */
  predicate Trail(s: string) {
    s != "" ==> s[0] !in DIGITS
  }

  lemma StartReaches(s: string, i: nat, j: nat)
    requires i <= j <= |s| && (forall k | i <= k < j :: Is(Hex, s[k])) && (0 < i ==> !Is(Hex, s[i - 1]))
    ensures RunStart(s, j) == i
    decreases j
  {
    if i < j {
      StartReaches(s, i, j - 1);
    }
  }

  lemma FirstColonFirstAnchor(s: string, from: nat, j: nat)
    requires from <= j < |s| && IsAnchor(s, j) && forall k | from <= k < j :: s[k] != ':'
    ensures FirstAnchor(s, from) == Some(j)
    decreases j - from
  {
    hide Tail;
    if from < j {
      FirstColonFirstAnchor(s, from + 1, j);
    }
  }

  /** A reading that nothing before or after can extend, at the first colon of the text. */
  ghost predicate Stands(s: string, i: nat, j: nat, a: nat, b: nat) {
    && Reads(s, i, j, a, b)
    && (0 < i ==> !Is(Hex, s[i - 1]))
    && (b < |s| ==> !IsDigit(s[b]))
    && (forall k | 0 <= k < j :: s[k] != ':')
  }

  lemma StandingCuts(s: string, i: nat, j: nat, a: nat, b: nat)
    requires Stands(s, i, j, a, b)
    ensures CutsInto(s, s[i..j], s[j + 1..a], s[a + 1..b])
  {
    hide RunLength, RunStart, FirstAnchor;
    ReadsAnchor(s, i, j, a, b);
    RunReaches(Digit, s, a + 1, b);
    StartReaches(s, i, j);
    FirstColonFirstAnchor(s, 0, j);
  }

  lemma DigitsAndUuids(c: char)
    ensures (Is(Hex, c) <==> c in UUID_CHARS) && (IsDigit(c) <==> c in DIGITS)
  {
    ClassesAreLiteral(c);
  }

  lemma HexIsNoColon(c: char)
    requires Is(Hex, c)
    ensures c != ':'
  {
  }

  /** Where the pieces of a printed GTID with context lie. */
  lemma Pieces(lead: string, uuid: string, m: string, n: string, trail: string)
    ensures var s := lead + uuid + ":" + m + "-" + n + trail;
            var i := |lead|; var j := i + |uuid|; var a := j + 1 + |m|; var b := a + 1 + |n|;
            && b <= |s| && s[..i] == lead && s[i..j] == uuid && s[j] == ':' && s[j + 1..a] == m && s[a] == '-'
            && s[a + 1..b] == n && s[b..] == trail
  {
  }

  lemma PrintedStands(s: string, i: nat, j: nat, a: nat, b: nat)
    requires i < j < a < b <= |s| && j + 1 < a && a + 1 < b
    requires Lead(s[..i]) && IsUuid(s[i..j]) && s[j] == ':' && AllDigits(s[j + 1..a]) && s[a] == '-'
    requires AllDigits(s[a + 1..b]) && Trail(s[b..])
    ensures Stands(s, i, j, a, b)
  {
    hide Is, IsDigit;
    forall c: char ensures (Is(Hex, c) <==> c in UUID_CHARS) && (IsDigit(c) <==> c in DIGITS) { DigitsAndUuids(c); }
    forall k | i <= k < j ensures Is(Hex, s[k]) { assert s[k] == s[i..j][k - i]; }
    forall k | j < k < a ensures IsDigit(s[k]) { assert s[k] == s[j + 1..a][k - j - 1]; }
    forall k | a < k < b ensures IsDigit(s[k]) { assert s[k] == s[a + 1..b][k - a - 1]; }
    assert 0 < i ==> s[i - 1] == s[..i][|s[..i]| - 1];
    assert b < |s| ==> s[b] == s[b..][0];
    forall k | 0 <= k < j ensures s[k] != ':' {
      if k < i { assert s[k] == s[..i][k]; } else { HexIsNoColon(s[k]); }
    }
  }

  lemma PrintedPieces(lead: string, uuid: string, m: string, n: string, trail: string)
    requires Lead(lead) && IsUuid(uuid) && Trail(trail)
    requires m != "" && n != "" && AllDigits(m) && AllDigits(n)
    ensures CutsInto(lead + uuid + ":" + m + "-" + n + trail, uuid, m, n)
  {
    hide Lead, Trail, AllDigits, Stands, CutsInto;
    var s := lead + uuid + ":" + m + "-" + n + trail;
    var i := |lead|;
    var j := i + |uuid|;
    var a := j + 1 + |m|;
    var b := a + 1 + |n|;
    Pieces(lead, uuid, m, n, trail);
    PrintedStands(s, i, j, a, b);
    StandingCuts(s, i, j, a, b);
  }

  /** A printed GTID parses back to its fields, also inside other text. */
  lemma RoundTrip(lead: string, uuid: string, start: int64, end: int64, trail: string)
    requires Lead(lead) && IsUuid(uuid) && start >= 0 && end >= 0 && Trail(trail)
    ensures ParseGTID(lead + uuid + ":" + Decimal(start) + "-" + Decimal(end) + trail) == Ok(GTID("", uuid, 0, start, end))
    ensures ParseGTID(lead + Print(uuid, start, end) + trail) == Ok(GTID("", uuid, 0, start, end))
  {
    hide ParseGTID, CutsInto, Decimal, Value;
    var m, n := Decimal(start), Decimal(end);
    var text := lead + uuid + ":" + m + "-" + n + trail;
    PrintedPieces(lead, uuid, m, n, trail);
    ValueOfDecimal(start);
    ValueOfDecimal(end);
    AcceptedIff(text, GTID("", uuid, 0, start, end));
    assert lead + Print(uuid, start, end) + trail == text;
  }

  /** A first match out of range is an error, whatever comes before it and after it, later matches included. */
  lemma LaterMatchDoesNotHelp(text: string, uuid: string, m: string, n: string)
    requires CutsInto(text, uuid, m, n) && AllDigits(m) && AllDigits(n)
    requires Value(m) > MAX_INT64 || Value(n) > MAX_INT64
    ensures ParseGTID(text).Err?
  {
    hide ParseGTID, CutsInto, Value;
    if r: GTID :| ParseGTID(text) == Ok(r) {
      AcceptedIff(text, r);
      var m', n' :| CutsInto(text, r.uuid, m', n') && AllDigits(m') && AllDigits(n')
                    && Value(m') == r.start && Value(n') == r.end;
      CutsOnce(text, uuid, m, n, r.uuid, m', n');
    }
  }

  lemma CutsOnce(text: string, u: string, m: string, n: string, u': string, m': string, n': string)
    requires CutsInto(text, u, m, n) && CutsInto(text, u', m', n')
    ensures u == u' && m == m' && n == n'
  {
  }
}
